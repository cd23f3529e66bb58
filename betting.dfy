/** The betting-question generator of the match-detail page. A snapshot is first put
    into exactly one state; each state but the live one yields a fixed list of
    questions. In the live state a fixed, ordered list of independently gated rules
    runs and what they produce is concatenated.

    `Generate` states the generator as rules over a context of derived facts;
    `GenerateBettingQuestions` is the generator as the page runs it (a list built up by
    `push`, early returns, a loop over the batsmen still in) and is proved equal to it. */
module Betting {
  import opened Wrappers
  import opened Js
  import opened Cricket

  // ---------------------------------------------------------------- questions

  /** One answer to a question; the odds are display literals, never computed. */
  datatype Choice = Choice(text: string, odds: string)

  /** What a question asks, with the values its text interpolates; `Render` spells the
      text out. */
  datatype Prompt =
    | GeneralMatch
    | AvailableSoon
    | WhenResume(n1: Option<string>, n2: Option<string>)
    | ScoreWhenResumed
    | WhatResult
    | WinningMargin
    | PreMatchWho
    | FirstBoundary
    | WhoWillWin(n1: Option<string>, n2: Option<string>)
    | MatchWinnerOf(n1: Option<string>, n2: Option<string>)
    | TwentyPlus(name: string)
    | NextBoundary(name: string)
    | NextWicket(name: string)
    | FiftyPartnership(name1: string, name2: string)
    | ReachRuns(teamOrDefault: string, milestoneRuns: int)
    | NextOverRuns(name: string)
    | DeclareToday(team: Option<string>)
    | EnforceFollowOn(team: Option<string>)
    | ReachTarget(team: Option<string>, target: int)
    | LoseWicket(team: Option<string>)
    | AllOut(team: Option<string>)
    | ResultInTenOvers
    | CenturyFor(batsman: Option<string>)

  /** The question text the page shows for a prompt. */
  function Render(p: Prompt): string {
    match p
    case GeneralMatch => "General Match Questions"
    case AvailableSoon => "Match betting available soon"
    case WhenResume(n1, n2) => "When will " + Show(n1) + " vs " + Show(n2) + " resume?"
    case ScoreWhenResumed => "Score when match resumes?"
    case WhatResult => "What should the result be?"
    case WinningMargin => "What was the winning margin?"
    case PreMatchWho => "Pre-match: Who will win?"
    case FirstBoundary => "First boundary of the match?"
    case WhoWillWin(n1, n2) => "Who will win: " + Show(n1) + " vs " + Show(n2) + "?"
    case MatchWinnerOf(n1, n2) => "Match Winner: " + Show(n1) + " vs " + Show(n2)
    case TwentyPlus(name) => "Will " + name + " score 20+ runs in this innings?"
    case NextBoundary(name) => "Will " + name + " hit next boundary?"
    case NextWicket(name) => "Will " + name + " take next wicket?"
    case FiftyPartnership(name1, name2) => "Will " + name1 + "-" + name2 + " partnership reach 50 runs?"
    case ReachRuns(teamOrDefault, milestoneRuns) => "Will " + teamOrDefault + " reach " + IntToString(milestoneRuns) + "+ runs?"
    case NextOverRuns(name) => "Runs off " + name + "'s next over"
    case DeclareToday(team) => "Will " + Show(team) + " captain declare before end of day?"
    case EnforceFollowOn(team) => "Will " + Show(team) + " enforce follow-on?"
    case ReachTarget(team, target) => "Will " + Show(team) + " reach target of " + IntToString(target) + "?"
    case LoseWicket(team) => "Will " + Show(team) + " lose a wicket before next interval?"
    case AllOut(team) => "Will " + Show(team) + " get all out in this innings?"
    case ResultInTenOvers => "Match result in next 10 overs?"
    case CenturyFor(batsman) => "Will " + Show(batsman) + " score a century?"
  }

  /** The id of a question card; `IdText` spells it out. */
  datatype QuestionId =
    | FallbackId
    | ErrorFallbackId
    | RainDelayResumeId
    | RainDelayScoreId
    | AbandonedResultId
    | CompletedMarginId
    | PreMatchWinnerId
    | PreMatchFirstBoundaryId
    | GeneralWinnerId
    | MatchWinnerId
    | BatsmanRunsId
    | BatsmanBoundaryId
    | BowlerWicketId
    | PartnershipId
    | MilestoneId
    | NextOverId
    | DeclarationId
    | FollowOnId
    | TargetReachId
    | SessionSurvivalId
    | InningsCompletionId
    | ImminentResultId
    | CenturyId(index: nat)

  /** The id string the page gives a question; it is the React key of the rendered card. */
  function IdText(id: QuestionId): string {
    match id
    case FallbackId => "fallback"
    case ErrorFallbackId => "error_fallback"
    case RainDelayResumeId => "rain_delay_resume"
    case RainDelayScoreId => "rain_delay_score"
    case AbandonedResultId => "abandoned_result"
    case CompletedMarginId => "completed_margin"
    case PreMatchWinnerId => "pre_match_winner"
    case PreMatchFirstBoundaryId => "pre_match_first_boundary"
    case GeneralWinnerId => "general_winner"
    case MatchWinnerId => "match_winner"
    case BatsmanRunsId => "current_batsman_runs"
    case BatsmanBoundaryId => "current_batsman_boundary"
    case BowlerWicketId => "bowler_wicket"
    case PartnershipId => "partnership_runs"
    case MilestoneId => "score_milestone"
    case NextOverId => "next_over_runs"
    case DeclarationId => "captain_declaration"
    case FollowOnId => "follow_on"
    case TargetReachId => "target_reach"
    case SessionSurvivalId => "session_survival"
    case InningsCompletionId => "innings_completion"
    case ImminentResultId => "match_result_imminent"
    case CenturyId(index) => "century_" + NatToString(index)
  }

  /** `{id, question, options}` */
  datatype Question = Question(id: QuestionId, question: Prompt, options: seq<Choice>)

  function YesNo(yes: string, no: string): seq<Choice> {
    [Choice("Yes", yes), Choice("No", no)]
  }

  /** The question for a missing snapshot or one without teams. */
  function FallbackQuestion(): Question {
    Question(FallbackId, GeneralMatch,
      [Choice("Match will be exciting", "1.50"), Choice("Match will be competitive", "2.00")])
  }

  /** The question the `catch` clause returns. */
  function ErrorFallbackQuestion(): Question {
    Question(ErrorFallbackId, AvailableSoon,
      [Choice("Home team to win", "2.00"), Choice("Away team to win", "2.20")])
  }

  function RainDelayResume(n1: Option<string>, n2: Option<string>): Question {
    Question(RainDelayResumeId, WhenResume(n1, n2),
      [Choice("Within 30 mins", "2.50"), Choice("30-60 mins", "2.00"),
       Choice("Over 60 mins", "3.00"), Choice("Match abandoned", "4.00")])
  }

  function RainDelayScore(n1: Option<string>, n2: Option<string>): Question {
    Question(RainDelayScoreId, ScoreWhenResumed,
      [Choice(Show(n1) + " leads", "2.10"), Choice(Show(n2) + " leads", "2.10"),
       Choice("Scores level", "3.50")])
  }

  function AbandonedResult(n1: Option<string>, n2: Option<string>): Question {
    Question(AbandonedResultId, WhatResult,
      [Choice(Show(n1) + " wins", "2.20"), Choice(Show(n2) + " wins", "2.20"),
       Choice("No result", "3.00"), Choice("Replay match", "5.00")])
  }

  function CompletedMargin(): Question {
    Question(CompletedMarginId, WinningMargin,
      [Choice("Close finish (<20 runs)", "2.50"), Choice("Comfortable win (20-50)", "2.10"),
       Choice("Big win (>50)", "3.00")])
  }

  function PreMatchWinner(n1: Option<string>, n2: Option<string>): Question {
    Question(PreMatchWinnerId, PreMatchWho,
      [Choice(Or(n1, "Team 1"), "2.00"), Choice(Or(n2, "Team 2"), "2.20"), Choice("Draw", "8.00")])
  }

  function PreMatchFirstBoundary(): Question {
    Question(PreMatchFirstBoundaryId, FirstBoundary,
      [Choice("Within first over", "3.00"), Choice("Within first 3 overs", "2.20"),
       Choice("After 3 overs", "2.50")])
  }

  function GeneralWinner(n1: Option<string>, n2: Option<string>): Question {
    Question(GeneralWinnerId, WhoWillWin(n1, n2),
      [Choice(Or(n1, "Team 1"), "2.00"), Choice(Or(n2, "Team 2"), "2.20"), Choice("Draw", "8.00")])
  }

  function MatchWinner(format: int, n1: Option<string>, n2: Option<string>): Question {
    Question(MatchWinnerId, MatchWinnerOf(n1, n2),
      [Choice(Or(n1, "Team 1"), if format == 3 then "1.85" else "1.72"),
       Choice(Or(n2, "Team 2"), if format == 3 then "2.10" else "2.25"),
       Choice("Draw/Tie", if format == 2 then "4.50" else "15.00")])
  }

  function BatsmanRuns(name: string): Question {
    Question(BatsmanRunsId, TwentyPlus(name), YesNo("2.40", "1.55"))
  }

  function BatsmanBoundary(name: string): Question {
    Question(BatsmanBoundaryId, NextBoundary(name), [Choice("Yes (4 or 6)", "1.75"), Choice("No", "2.00")])
  }

  function BowlerWicket(name: string): Question {
    Question(BowlerWicketId, NextWicket(name), YesNo("3.50", "1.30"))
  }

  function Partnership(name1: string, name2: string): Question {
    Question(PartnershipId, FiftyPartnership(name1, name2), YesNo("2.10", "1.70"))
  }

  function Milestone(team: Option<string>, milestoneRuns: int): Question {
    Question(MilestoneId, ReachRuns(Or(team, "Current team"), milestoneRuns), YesNo("1.65", "2.20"))
  }

  function NextOver(name: string): Question {
    Question(NextOverId, NextOverRuns(name),
      [Choice("0-2 runs", "3.50"), Choice("3-5 runs", "2.10"), Choice("6+ runs", "2.80")])
  }

  function Declaration(team: Option<string>): Question {
    Question(DeclarationId, DeclareToday(team), YesNo("3.00", "1.40"))
  }

  function FollowOn(team: Option<string>): Question {
    Question(FollowOnId, EnforceFollowOn(team), YesNo("2.50", "1.55"))
  }

  function TargetReach(team: Option<string>, target: int, wickets: int): Question {
    Question(TargetReachId, ReachTarget(team, target),
      if wickets <= 3 then YesNo("2.20", "1.70") else YesNo("3.50", "1.30"))
  }

  function SessionSurvival(team: Option<string>): Question {
    Question(SessionSurvivalId, LoseWicket(team), YesNo("1.85", "1.95"))
  }

  function InningsCompletion(team: Option<string>, wickets: int): Question {
    Question(InningsCompletionId, AllOut(team),
      if wickets >= 9 then YesNo("1.20", "4.50") else YesNo("2.50", "1.55"))
  }

  function ImminentResult(team: Option<string>): Question {
    Question(ImminentResultId, ResultInTenOvers,
      [Choice(Show(team) + " wins", "2.75"), Choice("Bowling team wins", "2.10"), Choice("No result yet", "3.00")])
  }

  /** A batsman still in with a defined score of at least 50. */
  predicate ReachedFifty(b: Batsman) {
    b.runs.Some? && b.runs.value >= 50
  }

  function Century(b: Batsman, index: nat): Question
    requires ReachedFifty(b)
  {
    Question(CenturyId(index), CenturyFor(b.playerName),
      if b.runs.value >= 80 then YesNo("1.80", "2.00") else YesNo("3.00", "1.35"))
  }

  // ---------------------------------------------------------------- classification

  /** The states a snapshot with teams is put in, in the order the code checks them. */
  datatype MatchState = Delayed | Abandoned | Completed | NotStarted | Live | Indeterminate

  function Classify(m: Match): (state: MatchState)
    ensures state.Live? <==>
      m.isLive && m.status != 3 && !Truthy(m.resultMessage) && CurrentInnings(ScorecardData(m)).Some?
    ensures state.NotStarted? ==> !m.isLive && CurrentInnings(ScorecardData(m)).None?
  {
    var entry := ScorecardData(m);
    if !m.isLive && m.status == 5 then Delayed
    else if m.status == 3 then Abandoned
    else if Truthy(m.resultMessage) then Completed
    else if !m.isLive && entry.None? then NotStarted
    else if m.isLive && entry.Some? && CurrentInnings(entry).Some? then Live
    else Indeterminate
  }

  /** `getFormatName`'s switch as a run target: T20 150, ODI 250, Test 300, otherwise 150. */
  function MilestoneRuns(format: int): (runs: int)
    ensures runs == 150 || runs == 250 || runs == 300
    ensures runs == 250 <==> format == 1
    ensures runs == 300 <==> format == 2
  {
    if format == 3 then 150
    else if format == 1 then 250
    else if format == 2 then 300
    else 150
  }

  // ---------------------------------------------------------------- live rules

  /** What the live rules read, derived once from the snapshot. */
  datatype Context = Context(
    format: int,
    team1: Option<Team>,
    team2: Option<Team>,
    battingTeam: Option<Team>,
    runs: int,
    wickets: int,
    active: seq<Batsman>,
    bowler: Option<Bowler>,
    inningsCount: nat,
    target: Option<int>,
    previous: Option<Innings>,
    scorecardTeam1: Option<string>,
    scorecardTeam2: Option<string>)

  function LiveContext(m: Match, current: Innings): (c: Context)
    requires m.teams.Some?
    ensures c.previous.Some? <==> c.inningsCount > 1
    ensures c.battingTeam.None? ==> c.runs == 0 && c.wickets == 0
  {
    var entry := ScorecardData(m);
    var t1, t2 := m.teams.value.t1, m.teams.value.t2;
    var score := BattingScore(t1, t2, current);
    assert BattingTeam(t1, t2, current).None? ==> ScoreRuns(score) == 0 && ScoreWickets(score) == 0 by {
      if BattingTeam(t1, t2, current).None? {
        UnresolvedBattingTeamScoresZero(t1, t2, current);
      }
    }
    var all := AllInnings(entry);
    var result := ResultOf(entry);
    Context(
      m.format, t1, t2, BattingTeam(t1, t2, current),
      ScoreRuns(score), ScoreWickets(score),
      ActiveBatsmen(Some(current)), CurrentBowler(Some(current)),
      |all|,
      if result.Some? then result.value.targetRuns else None,
      PreviousInnings(all),
      if result.Some? then result.value.team1Name else None,
      if result.Some? then result.value.team2Name else None)
  }

  /** The context of a live snapshot, derived from its current innings. */
  function SnapshotContext(m: Match): Context
    requires m.teams.Some? && Classify(m).Live?
  {
    LiveContext(m, CurrentInnings(ScorecardData(m)).value)
  }

  predicate BowlerNamed(bowler: Option<Bowler>) {
    bowler.Some? && Truthy(bowler.value.playerName)
  }

  function MatchWinnerRule(c: Context): seq<Question> {
    [MatchWinner(c.format, NameOf(c.team1), NameOf(c.team2))]
  }

  /** The first batsman still in has a name. */
  predicate FirstBatsmanNamed(c: Context) {
    |c.active| > 0 && Truthy(c.active[0].playerName)
  }

  /** The first two batsmen still in both have names. */
  predicate PairNamed(c: Context) {
    |c.active| >= 2 && Truthy(c.active[0].playerName) && Truthy(c.active[1].playerName)
  }

  /** The batting side has not yet reached the format's run target. */
  predicate BelowMilestone(c: Context) {
    c.runs < MilestoneRuns(c.format)
  }

  /** From the second innings on, a known batting side and no target set. */
  predicate DeclarationOpen(c: Context) {
    c.inningsCount >= 2 && c.battingTeam.Some? && !NumTruthy(c.target)
  }

  /** A previous innings next to exactly one innings, and a lead of at least 200 on it. */
  predicate FollowOnMargin(c: Context) {
    c.inningsCount == 1 && c.previous.Some? &&
    var total1 := FollowOnTotal(c.scorecardTeam1, c.team1, c.previous.value);
    var total2 := FollowOnTotal(c.scorecardTeam2, c.team2, c.previous.value);
    total1 - total2 >= 200 || total2 - total1 >= 200
  }

  /** A target set in the fourth innings, between 1 and 150 runs still needed. */
  predicate TargetInReach(c: Context) {
    NumTruthy(c.target) && c.inningsCount == 4 && 0 < c.target.value - c.runs <= 150
  }

  /** A known batting side with fewer than ten wickets down. */
  predicate WicketsInHand(c: Context) {
    c.battingTeam.Some? && c.wickets < 10
  }

  /** Seven or more wickets down and no target set. */
  predicate TailExposed(c: Context) {
    c.wickets >= 7 && !NumTruthy(c.target)
  }

  /** A target set from the third innings on, at most 100 runs needed, five or more wickets
      in hand. */
  predicate ResultNear(c: Context) {
    NumTruthy(c.target) && c.inningsCount >= 3 && c.target.value - c.runs <= 100 && 10 - c.wickets >= 5
  }

  function BatsmanRule(c: Context): seq<Question> {
    if FirstBatsmanNamed(c) then
      [BatsmanRuns(c.active[0].playerName.value), BatsmanBoundary(c.active[0].playerName.value)]
    else []
  }

  function BowlerWicketRule(c: Context): seq<Question> {
    if BowlerNamed(c.bowler) then [BowlerWicket(c.bowler.value.playerName.value)] else []
  }

  function PartnershipRule(c: Context): seq<Question> {
    if PairNamed(c) then
      [Partnership(c.active[0].playerName.value, c.active[1].playerName.value)]
    else []
  }

  function MilestoneRule(c: Context): seq<Question> {
    if BelowMilestone(c) then [Milestone(NameOf(c.battingTeam), MilestoneRuns(c.format))] else []
  }

  function NextOverRule(c: Context): seq<Question> {
    if BowlerNamed(c.bowler) then [NextOver(c.bowler.value.playerName.value)] else []
  }

  function DeclarationRule(c: Context): seq<Question> {
    if DeclarationOpen(c) then
      [Declaration(NameOf(c.battingTeam))]
    else []
  }

  /** The runs the previous innings credits to a team whose scorecard name matches. */
  function FollowOnTotal(scorecardName: Option<string>, team: Option<Team>, previous: Innings): int {
    if scorecardName == NameOf(team) then OrZero(InningsRunsOf(previous)) else 0
  }

  function FollowOnRule(c: Context): seq<Question> {
    if FollowOnMargin(c) then
      var total1 := FollowOnTotal(c.scorecardTeam1, c.team1, c.previous.value);
      var total2 := FollowOnTotal(c.scorecardTeam2, c.team2, c.previous.value);
      [FollowOn(NameOf(if total1 > total2 then c.team1 else c.team2))]
    else []
  }

  function TargetChaseRule(c: Context): seq<Question> {
    if TargetInReach(c) then
      [TargetReach(NameOf(c.battingTeam), c.target.value, c.wickets)]
    else []
  }

  function SessionSurvivalRule(c: Context): seq<Question> {
    if WicketsInHand(c) then [SessionSurvival(NameOf(c.battingTeam))] else []
  }

  function InningsCompletionRule(c: Context): seq<Question> {
    if TailExposed(c) then [InningsCompletion(NameOf(c.battingTeam), c.wickets)] else []
  }

  function ImminentResultRule(c: Context): seq<Question> {
    if ResultNear(c) then
      [ImminentResult(NameOf(c.battingTeam))]
    else []
  }

  /** One century question per batsman among the first `n` still in who reached 50. */
  function Centuries(active: seq<Batsman>, n: nat): (r: seq<Question>)
    requires n <= |active|
    ensures |r| <= n
  {
    if n == 0 then []
    else Centuries(active, n - 1) + (if ReachedFifty(active[n - 1]) then [Century(active[n - 1], n - 1)] else [])
  }

  function CenturyRule(c: Context): seq<Question> {
    if |c.active| > 0 && c.format == 2 then Centuries(c.active, |c.active|) else []
  }

  /** The questions about the batsmen still in and the current bowler. */
  function PlayerRules(c: Context): seq<Question> {
    BatsmanRule(c) + BowlerWicketRule(c) + PartnershipRule(c)
  }

  /** The questions on how the innings goes on: the score milestone and the next over. */
  function ProgressRules(c: Context): seq<Question> {
    MilestoneRule(c) + NextOverRule(c)
  }

  /** The Test rules that read the innings count: declaration, follow-on, target chase. */
  function InningsRules(c: Context): seq<Question> {
    DeclarationRule(c) + FollowOnRule(c) + TargetChaseRule(c)
  }

  /** The Test rules that read the wickets down: session survival, innings completion,
      imminent result. */
  function SessionRules(c: Context): seq<Question> {
    SessionSurvivalRule(c) + InningsCompletionRule(c) + ImminentResultRule(c)
  }

  /** The rules that only a Test match runs, in order. */
  function TestRules(c: Context): seq<Question> {
    InningsRules(c) + SessionRules(c) + CenturyRule(c)
  }

  /** Every live rule, in order. */
  function LiveQuestions(c: Context): (r: seq<Question>)
    ensures |r| >= 1 && r[0].id == MatchWinnerId
  {
    MatchWinnerRule(c) + PlayerRules(c) + ProgressRules(c) + (if c.format == 2 then TestRules(c) else [])
  }

  // ---------------------------------------------------------------- the generator

  /** The states that return a fixed list of questions as soon as they are detected. */
  predicate EarlyReturn(state: MatchState) {
    state.Delayed? || state.Abandoned? || state.Completed? || state.NotStarted?
  }

  /** The fixed list of an early-return state, for the teams named `n1` and `n2`. */
  function FixedQuestions(state: MatchState, n1: Option<string>, n2: Option<string>): seq<Question>
    requires EarlyReturn(state)
  {
    match state
    case Delayed => [RainDelayResume(n1, n2), RainDelayScore(n1, n2)]
    case Abandoned => [AbandonedResult(n1, n2)]
    case Completed => [CompletedMargin()]
    case NotStarted => [PreMatchWinner(n1, n2), PreMatchFirstBoundary()]
  }

  /** The questions for a snapshot (None for a null snapshot). */
  function Generate(snapshot: Option<Match>): seq<Question> {
    if snapshot.None? || snapshot.value.teams.None? then [FallbackQuestion()]
    else
      var m := snapshot.value;
      var n1, n2 := NameOf(m.teams.value.t1), NameOf(m.teams.value.t2);
      var state := Classify(m);
      if EarlyReturn(state) then FixedQuestions(state, n1, n2)
      else if state.Live? then LiveQuestions(SnapshotContext(m))
      else [GeneralWinner(n1, n2)]
  }

  /** `generateBettingQuestions` as the page runs it. */
  method GenerateBettingQuestions(matchData: Option<Match>) returns (questions: seq<Question>)
    ensures questions == Generate(matchData)
  {
    if matchData.None? || matchData.value.teams.None? {
      return [FallbackQuestion()];
    }
    var m := matchData.value;
    questions := [];
    var team1, team2 := m.teams.value.t1, m.teams.value.t2;

    var scorecardData := ScorecardData(m);
    var currentInnings := CurrentInnings(scorecardData);

    var isDelayed := !m.isLive && m.status == 5;
    var isAbandoned := m.status == 3;
    var isCompleted := Truthy(m.resultMessage);
    var notStarted := !m.isLive && scorecardData.None?;

    if isDelayed || isAbandoned || isCompleted || notStarted {
      questions := AskFixedQuestions(Classify(m), isDelayed, isAbandoned, isCompleted, NameOf(team1), NameOf(team2));
      return;
    }

    questions := AskOngoingQuestions(m, scorecardData, currentInnings);
  }

  /** Past the early returns: the live questions when the match is live with an innings
      to read, and the general question when nothing else was asked. */
  method AskOngoingQuestions(m: Match, scorecardData: Option<ScorecardEntry>, currentInnings: Option<Innings>)
    returns (questions: seq<Question>)
    requires m.teams.Some? && scorecardData == ScorecardData(m) && currentInnings == CurrentInnings(scorecardData)
    requires !EarlyReturn(Classify(m))
    ensures questions == Generate(Some(m))
  {
    questions := [];
    if m.isLive && scorecardData.Some? && currentInnings.Some? {
      questions := AskLiveQuestions(m, currentInnings.value);
    }

    if |questions| == 0 {
      assert Classify(m).Indeterminate? && questions == [];
      questions := questions + [GeneralWinner(NameOf(m.teams.value.t1), NameOf(m.teams.value.t2))];
    }
  }

  /** The scenarios that return at once: rain delay, abandoned, completed, pre-match;
      the flags are checked in that order. */
  method AskFixedQuestions(ghost state: MatchState, isDelayed: bool, isAbandoned: bool, isCompleted: bool,
                           n1: Option<string>, n2: Option<string>)
    returns (questions: seq<Question>)
    requires EarlyReturn(state)
    requires isDelayed == state.Delayed?
    requires !isDelayed ==> (isAbandoned == state.Abandoned?)
    requires !isDelayed && !isAbandoned ==> (isCompleted == state.Completed?)
    ensures questions == FixedQuestions(state, n1, n2)
  {
    questions := [];
    if isDelayed {
      questions := questions + [RainDelayResume(n1, n2)];
      questions := questions + [RainDelayScore(n1, n2)];
      return;
    }
    if isAbandoned {
      questions := questions + [AbandonedResult(n1, n2)];
      return;
    }
    if isCompleted {
      questions := questions + [CompletedMargin()];
      return;
    }
    questions := questions + [PreMatchWinner(n1, n2)];
    questions := questions + [PreMatchFirstBoundary()];
  }

  /** The live branch: the general rules, then, for a Test match, the Test rules. */
  method AskLiveQuestions(m: Match, innings: Innings) returns (questions: seq<Question>)
    requires m.teams.Some?
    ensures questions == LiveQuestions(LiveContext(m, innings))
    ensures |questions| > 0
  {
    var team1, team2 := m.teams.value.t1, m.teams.value.t2;
    var format := m.format;
    var scorecardData := ScorecardData(m);
    var allInnings := AllInnings(scorecardData);
    var previousInnings := PreviousInnings(allInnings);
    var activeBatsmen := ActiveBatsmen(Some(innings));
    var currentBowler := CurrentBowler(Some(innings));
    var battingTeam, runs, wickets := ReadBattingTeam(team1, team2, innings);
    ghost var result := ResultOf(scorecardData);
    ghost var c := Context(
      format, team1, team2, battingTeam, runs, wickets, activeBatsmen, currentBowler, |allInnings|,
      if result.Some? then result.value.targetRuns else None, previousInnings,
      if result.Some? then result.value.team1Name else None,
      if result.Some? then result.value.team2Name else None);
    assert c == LiveContext(m, innings);

    questions := [MatchWinner(format, NameOf(team1), NameOf(team2))];
    var players := AskPlayerQuestions(c, activeBatsmen, currentBowler);
    questions := questions + players;
    ghost var live := MatchWinnerRule(c) + PlayerRules(c);
    assert questions == live;

    var progress := AskProgressQuestions(c, format, runs, battingTeam, currentBowler);
    questions := questions + progress;
    live := live + ProgressRules(c);
    assert questions == live;

    if format == 2 {
      var result := ResultOf(scorecardData);
      var targetRuns := if result.Some? then result.value.targetRuns else None;
      var scorecardTeam1 := if result.Some? then result.value.team1Name else None;
      var scorecardTeam2 := if result.Some? then result.value.team2Name else None;
      var test := AskTestQuestions(c, team1, team2, scorecardTeam1, scorecardTeam2,
                                   |allInnings|, targetRuns, previousInnings, battingTeam, runs, wickets, activeBatsmen);
      questions := questions + test;
    }
  }

  /** The batting team, found by the current innings' team name, and its runs and wickets
      as read from its "runs/wickets" score. */
  method ReadBattingTeam(team1: Option<Team>, team2: Option<Team>, innings: Innings)
    returns (battingTeam: Option<Team>, runs: int, wickets: int)
    ensures battingTeam == BattingTeam(team1, team2, innings)
    ensures runs == ScoreRuns(BattingScore(team1, team2, innings))
    ensures wickets == ScoreWickets(BattingScore(team1, team2, innings))
  {
    var battingTeamName := TeamNameOf(innings);
    var isTeam1Batting := battingTeamName == NameOf(team1);
    var isTeam2Batting := battingTeamName == NameOf(team2);
    var currentScore := Or(if isTeam1Batting then ScoreOf(team1) else if isTeam2Batting then ScoreOf(team2) else Some("0/0"), "0/0");
    battingTeam := if isTeam1Batting then team1 else if isTeam2Batting then team2 else None;
    runs := OrZero(ParseIntOpt(Field(Split(currentScore, '/'), 0)));
    wickets := OrZero(ParseIntOpt(Field(Split(currentScore, '/'), 1)));
  }

  /** The questions about the batsmen still in and the current bowler. */
  method AskPlayerQuestions(ghost c: Context, activeBatsmen: seq<Batsman>, currentBowler: Option<Bowler>)
    returns (questions: seq<Question>)
    requires c.active == activeBatsmen && c.bowler == currentBowler
    ensures questions == PlayerRules(c)
  {
    questions := [];
    if |activeBatsmen| > 0 {
      var batsman := activeBatsmen[0];
      if Truthy(batsman.playerName) {
        questions := questions + [BatsmanRuns(batsman.playerName.value)];
        questions := questions + [BatsmanBoundary(batsman.playerName.value)];
      }
    }
    ghost var players := BatsmanRule(c);
    assert questions == players;

    if currentBowler.Some? && Truthy(currentBowler.value.playerName) {
      questions := questions + [BowlerWicket(currentBowler.value.playerName.value)];
    }
    players := players + BowlerWicketRule(c);
    assert questions == players;

    if |activeBatsmen| >= 2 {
      var batsman1, batsman2 := activeBatsmen[0].playerName, activeBatsmen[1].playerName;
      if Truthy(batsman1) && Truthy(batsman2) {
        questions := questions + [Partnership(batsman1.value, batsman2.value)];
      }
    }
  }

  /** The score milestone for the format and the next over of the current bowler. */
  method AskProgressQuestions(ghost c: Context, format: int, runs: int, battingTeam: Option<Team>,
                              currentBowler: Option<Bowler>)
    returns (questions: seq<Question>)
    requires c.format == format && c.runs == runs && c.battingTeam == battingTeam && c.bowler == currentBowler
    ensures questions == ProgressRules(c)
  {
    questions := [];
    var milestoneRuns := MilestoneRuns(format);
    if runs < milestoneRuns {
      questions := questions + [Milestone(NameOf(battingTeam), milestoneRuns)];
    }
    ghost var progress := MilestoneRule(c);
    assert questions == progress;

    if currentBowler.Some? && Truthy(currentBowler.value.playerName) {
      questions := questions + [NextOver(currentBowler.value.playerName.value)];
    }
  }

  /** The Test-only rules, reading the facts the live branch derived. */
  method AskTestQuestions(ghost c: Context, team1: Option<Team>, team2: Option<Team>,
                          scorecardTeam1: Option<string>, scorecardTeam2: Option<string>,
                          inningsNumber: nat, targetRuns: Option<int>, previousInnings: Option<Innings>,
                          battingTeam: Option<Team>, runs: int, wickets: int, activeBatsmen: seq<Batsman>)
    returns (questions: seq<Question>)
    requires c.format == 2 && c.team1 == team1 && c.team2 == team2
    requires c.scorecardTeam1 == scorecardTeam1 && c.scorecardTeam2 == scorecardTeam2
    requires c.inningsCount == inningsNumber && c.target == targetRuns && c.previous == previousInnings
    requires c.battingTeam == battingTeam && c.runs == runs && c.wickets == wickets && c.active == activeBatsmen
    ensures questions == TestRules(c)
  {
    var innings := AskInningsQuestions(c, team1, team2, scorecardTeam1, scorecardTeam2,
                                       inningsNumber, targetRuns, previousInnings, battingTeam, runs, wickets);
    var session := AskSessionQuestions(c, inningsNumber, targetRuns, battingTeam, runs, wickets);
    questions := innings + session;
    if |activeBatsmen| > 0 {
      var centuries := AskCenturyQuestions(activeBatsmen);
      questions := questions + centuries;
    }
  }

  /** Declaration, follow-on and target chase: the rules that read the innings count. */
  method AskInningsQuestions(ghost c: Context, team1: Option<Team>, team2: Option<Team>,
                             scorecardTeam1: Option<string>, scorecardTeam2: Option<string>,
                             inningsNumber: nat, targetRuns: Option<int>, previousInnings: Option<Innings>,
                             battingTeam: Option<Team>, runs: int, wickets: int)
    returns (questions: seq<Question>)
    requires c.team1 == team1 && c.team2 == team2
    requires c.scorecardTeam1 == scorecardTeam1 && c.scorecardTeam2 == scorecardTeam2
    requires c.inningsCount == inningsNumber && c.target == targetRuns && c.previous == previousInnings
    requires c.battingTeam == battingTeam && c.runs == runs && c.wickets == wickets
    ensures questions == InningsRules(c)
  {
    questions := [];
    if inningsNumber >= 2 && battingTeam.Some? && !NumTruthy(targetRuns) {
      questions := questions + [Declaration(NameOf(battingTeam))];
    }
    ghost var test := DeclarationRule(c);
    assert questions == test;

    if inningsNumber == 1 && previousInnings.Some? {
      var team1Total := if scorecardTeam1 == NameOf(team1) then OrZero(InningsRunsOf(previousInnings.value)) else 0;
      var team2Total := if scorecardTeam2 == NameOf(team2) then OrZero(InningsRunsOf(previousInnings.value)) else 0;
      var difference := if team1Total >= team2Total then team1Total - team2Total else team2Total - team1Total;
      if difference >= 200 {
        var leadingTeam := if team1Total > team2Total then team1 else team2;
        questions := questions + [FollowOn(NameOf(leadingTeam))];
      }
    }
    test := test + FollowOnRule(c);
    assert questions == test;

    if NumTruthy(targetRuns) && inningsNumber == 4 {
      var remainingRuns := targetRuns.value - runs;
      if remainingRuns > 0 && remainingRuns <= 150 {
        questions := questions + [TargetReach(NameOf(battingTeam), targetRuns.value, wickets)];
      }
    }
  }

  /** Session survival, innings completion and imminent result: the rules that read the
      wickets down. */
  method AskSessionQuestions(ghost c: Context, inningsNumber: nat, targetRuns: Option<int>,
                             battingTeam: Option<Team>, runs: int, wickets: int)
    returns (questions: seq<Question>)
    requires c.inningsCount == inningsNumber && c.target == targetRuns
    requires c.battingTeam == battingTeam && c.runs == runs && c.wickets == wickets
    ensures questions == SessionRules(c)
  {
    questions := [];
    if battingTeam.Some? && wickets < 10 {
      questions := questions + [SessionSurvival(NameOf(battingTeam))];
    }
    ghost var test := SessionSurvivalRule(c);
    assert questions == test;

    if wickets >= 7 && !NumTruthy(targetRuns) {
      questions := questions + [InningsCompletion(NameOf(battingTeam), wickets)];
    }
    test := test + InningsCompletionRule(c);
    assert questions == test;

    if NumTruthy(targetRuns) && inningsNumber >= 3 {
      var runsNeeded := targetRuns.value - runs;
      var wicketsInHand := 10 - wickets;
      if runsNeeded <= 100 && wicketsInHand >= 5 {
        questions := questions + [ImminentResult(NameOf(battingTeam))];
      }
    }
  }

  /** `activeBatsmen.forEach((batsman, index) => ...)`: a century question for every
      batsman still in who has reached 50, keyed by its index in the list. */
  method AskCenturyQuestions(activeBatsmen: seq<Batsman>) returns (questions: seq<Question>)
    ensures questions == Centuries(activeBatsmen, |activeBatsmen|)
  {
    questions := [];
    var index := 0;
    while index < |activeBatsmen|
      invariant 0 <= index <= |activeBatsmen|
      invariant questions == Centuries(activeBatsmen, index)
    {
      var batsman := activeBatsmen[index];
      if ReachedFifty(batsman) {
        questions := questions + [Century(batsman, index)];
      }
      index := index + 1;
    }
  }
}
