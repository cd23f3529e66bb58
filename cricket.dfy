/** The match snapshot the detail page receives, and the facts the betting-question
    generator derives from it before it decides anything: the scorecard record, the
    current and previous innings, the batsmen still in, the current bowler, the batting
    team and its parsed score. */
module Cricket {
  import opened Wrappers
  import opened Js

  // ---------------------------------------------------------------- snapshot

  /** `teams.t1` or `teams.t2`; `score` reads "runs/wickets". */
  datatype Team = Team(name: Option<string>, score: Option<string>)

  datatype Teams = Teams(t1: Option<Team>, t2: Option<Team>)

  /** `teamInfo` of an innings (its overs are never read by the generator). */
  datatype TeamInfo = TeamInfo(teamName: Option<string>, runs: Option<int>)

  /** A batting entry; an absent `isOut` is falsy, written false. */
  datatype Batsman = Batsman(playerName: Option<string>, runs: Option<int>, isOut: bool)

  datatype Bowler = Bowler(playerName: Option<string>)

  datatype Innings = Innings(
    teamInfo: Option<TeamInfo>,
    batting: Option<seq<Batsman>>,
    bowling: Option<seq<Bowler>>)

  /** `scorecard[0].result`; `team1Name` and `team2Name` stand for `teams?.team1?.name`
      and `teams?.team2?.name`, undefined when any link of the chain is missing. */
  datatype ScorecardResult = ScorecardResult(
    innings: Option<seq<Innings>>,
    inningsId: Option<string>,
    team1Name: Option<string>,
    team2Name: Option<string>,
    targetRuns: Option<int>)

  datatype ScorecardEntry = ScorecardEntry(result: Option<ScorecardResult>)

  /** The match record. `resultMessage` stands for `result?.message`. An absent `isLive`
      is falsy (false); an absent `status` or `format` behaves like any value the code
      does not single out. */
  datatype Match = Match(
    teams: Option<Teams>,
    isLive: bool,
    format: int,
    status: int,
    resultMessage: Option<string>,
    scorecard: Option<seq<ScorecardEntry>>)

  // ---------------------------------------------------------------- optional chains

  /** `team?.name` */
  function NameOf(t: Option<Team>): Option<string> {
    if t.Some? then t.value.name else None
  }

  /** `team?.score` */
  function ScoreOf(t: Option<Team>): Option<string> {
    if t.Some? then t.value.score else None
  }

  /** `inn.teamInfo?.teamName` */
  function TeamNameOf(inn: Innings): Option<string> {
    if inn.teamInfo.Some? then inn.teamInfo.value.teamName else None
  }

  /** `inn.teamInfo?.runs` */
  function InningsRunsOf(inn: Innings): Option<int> {
    if inn.teamInfo.Some? then inn.teamInfo.value.runs else None
  }

  /** `scorecardData?.result` */
  function ResultOf(entry: Option<ScorecardEntry>): Option<ScorecardResult> {
    if entry.Some? then entry.value.result else None
  }

  /** `scorecardData?.result?.innings` */
  function InningsOf(entry: Option<ScorecardEntry>): Option<seq<Innings>> {
    var r := ResultOf(entry);
    if r.Some? then r.value.innings else None
  }

  // ---------------------------------------------------------------- derived facts

  /** `scorecard && scorecard.length > 0 ? scorecard[0] : null` */
  function ScorecardData(m: Match): Option<ScorecardEntry> {
    if m.scorecard.Some? && |m.scorecard.value| > 0 then Some(m.scorecard.value[0]) else None
  }

  /** The key an innings is matched under: "t1" when its team name equals the
      scorecard's team1 name (two undefined names are equal), "t2" otherwise. */
  function TeamKey(inn: Innings, team1Name: Option<string>): string {
    if TeamNameOf(inn) == team1Name then "t1" else "t2"
  }

  /** The test `innings.find` applies: `inningsId` starts with the innings' team key. */
  predicate SelectedBy(inn: Innings, inningsId: string, team1Name: Option<string>) {
    StartsWith(inningsId, TeamKey(inn, team1Name))
  }

  /** The index of the first innings selected by `inningsId`, if any. */
  function FindSelected(innings: seq<Innings>, inningsId: string, team1Name: Option<string>): (r: Option<nat>)
    ensures r.Some? ==> r.value < |innings| && SelectedBy(innings[r.value], inningsId, team1Name)
    ensures r.Some? ==> forall j :: 0 <= j < r.value ==> !SelectedBy(innings[j], inningsId, team1Name)
    ensures r.None? ==> forall j :: 0 <= j < |innings| ==> !SelectedBy(innings[j], inningsId, team1Name)
  {
    if |innings| == 0 then None
    else if SelectedBy(innings[0], inningsId, team1Name) then Some(0)
    else
      var k := FindSelected(innings[1..], inningsId, team1Name);
      if k.Some? then Some(k.value + 1) else None
  }

  /** The current innings: with a truthy `inningsId`, the first innings it selects;
      otherwise, or when it selects none, the last innings (undefined for an empty list). */
  function CurrentInnings(entry: Option<ScorecardEntry>): (r: Option<Innings>)
    ensures r.Some? <==> InningsOf(entry).Some? && |InningsOf(entry).value| > 0
  {
    var innings := InningsOf(entry);
    if innings.None? then None
    else
      var list := innings.value;
      var result := ResultOf(entry).value;
      var found := if Truthy(result.inningsId) then FindSelected(list, result.inningsId.value, result.team1Name) else None;
      if found.Some? then Some(list[found.value])
      else if |list| > 0 then Some(list[|list| - 1])
      else None
  }

  /** Which innings `CurrentInnings` picks: under a truthy `inningsId`, the first one it
      selects; when the id is falsy or selects none, the last one. */
  lemma CurrentInningsSelection(entry: Option<ScorecardEntry>)
    ensures InningsOf(entry).Some? && Truthy(ResultOf(entry).value.inningsId) ==>
      var list, id, t1 := InningsOf(entry).value, ResultOf(entry).value.inningsId.value, ResultOf(entry).value.team1Name;
      forall k :: (0 <= k < |list| && SelectedBy(list[k], id, t1) &&
                   forall j :: 0 <= j < k ==> !SelectedBy(list[j], id, t1)) ==> CurrentInnings(entry) == Some(list[k])
    ensures InningsOf(entry).Some? && |InningsOf(entry).value| > 0 &&
      (!Truthy(ResultOf(entry).value.inningsId) ||
       forall k :: 0 <= k < |InningsOf(entry).value| ==>
         !SelectedBy(InningsOf(entry).value[k], ResultOf(entry).value.inningsId.value, ResultOf(entry).value.team1Name))
      ==> CurrentInnings(entry) == Some(InningsOf(entry).value[|InningsOf(entry).value| - 1])
  {
  }

  /** `scorecardData?.result?.innings || []` */
  function AllInnings(entry: Option<ScorecardEntry>): seq<Innings> {
    var innings := InningsOf(entry);
    if innings.Some? then innings.value else []
  }

  /** The second-to-last innings when there are at least two. */
  function PreviousInnings(all: seq<Innings>): (r: Option<Innings>)
    ensures r.Some? <==> |all| > 1
  {
    if |all| > 1 then Some(all[|all| - 2]) else None
  }

  /** The batting entries, in order, that are not out. */
  function NotOut(batting: seq<Batsman>): (r: seq<Batsman>)
    ensures |r| <= |batting|
    ensures forall b :: b in r <==> b in batting && !b.isOut
  {
    if batting == [] then []
    else (if batting[0].isOut then [] else [batting[0]]) + NotOut(batting[1..])
  }

  /** A single entry is kept exactly when it is not out. */
  lemma NotOutSingle(b: Batsman)
    ensures NotOut([b]) == if b.isOut then [] else [b]
  {
    assert [b][1..] == [];
  }

  /** The filter keeps the order of the list: the entries still in of a list made of two
      parts are those of the first part followed by those of the second. With
      `NotOutSingle` this fixes the result entry by entry, so each batsman's index among
      those still in is determined. */
  lemma {:induction false} NotOutAppend(a: seq<Batsman>, b: seq<Batsman>)
    ensures NotOut(a + b) == NotOut(a) + NotOut(b)
  {
    if a == [] {
      assert a + b == b;
    } else {
      assert (a + b)[0] == a[0] && (a + b)[1..] == a[1..] + b;
      NotOutAppend(a[1..], b);
    }
  }

  /** `getActiveBatsmen`: the current innings' batsmen still in, none without a batting list. */
  function ActiveBatsmen(current: Option<Innings>): (r: seq<Batsman>)
    ensures forall b :: b in r <==>
      current.Some? && current.value.batting.Some? && b in current.value.batting.value && !b.isOut
  {
    if current.Some? && current.value.batting.Some? then NotOut(current.value.batting.value) else []
  }

  /** `getCurrentBowler`: the last bowler of the current innings' bowling list. */
  function CurrentBowler(current: Option<Innings>): (r: Option<Bowler>)
    ensures r.Some? ==> current.Some? && current.value.bowling.Some? && r.value in current.value.bowling.value
  {
    if current.None? || current.value.bowling.None? || |current.value.bowling.value| == 0 then None
    else Some(current.value.bowling.value[|current.value.bowling.value| - 1])
  }

  /** Whoever was brought on last is the current bowler. */
  lemma CurrentBowlerIsLastIntroduced(inn: Innings, earlier: seq<Bowler>, b: Bowler)
    requires inn.bowling == Some(earlier + [b])
    ensures CurrentBowler(Some(inn)) == Some(b)
  {
  }

  /** A bowling list that is missing or empty yields no bowler. */
  lemma NoBowlerWithoutBowling(current: Option<Innings>)
    ensures CurrentBowler(current).None? <==>
      current.None? || current.value.bowling.None? || current.value.bowling.value == []
  {
  }

  // ---------------------------------------------------------------- batting team and score

  /** The team whose name equals the current innings' team name, t1 first. A name test
      that succeeds on an absent team object still gives no team. */
  function BattingTeam(t1: Option<Team>, t2: Option<Team>, inn: Innings): (r: Option<Team>)
    ensures r.Some? ==> (r == t1 || r == t2) && NameOf(r) == TeamNameOf(inn)
    ensures TeamNameOf(inn) == NameOf(t1) ==> r == t1
    ensures TeamNameOf(inn) != NameOf(t1) && TeamNameOf(inn) == NameOf(t2) ==> r == t2
    ensures TeamNameOf(inn) != NameOf(t1) && TeamNameOf(inn) != NameOf(t2) ==> r.None?
  {
    var batting := TeamNameOf(inn);
    if batting == NameOf(t1) then t1 else if batting == NameOf(t2) then t2 else None
  }

  /** The batting team's score string, "0/0" when no team matches or the score is falsy. */
  function BattingScore(t1: Option<Team>, t2: Option<Team>, inn: Innings): (s: string)
    ensures s != ""
    ensures BattingTeam(t1, t2, inn).None? ==> s == "0/0"
    ensures BattingTeam(t1, t2, inn).Some? && Truthy(BattingTeam(t1, t2, inn).value.score) ==>
      s == BattingTeam(t1, t2, inn).value.score.value
    ensures BattingTeam(t1, t2, inn).Some? && !Truthy(BattingTeam(t1, t2, inn).value.score) ==> s == "0/0"
  {
    var batting := TeamNameOf(inn);
    Or(if batting == NameOf(t1) then ScoreOf(t1) else if batting == NameOf(t2) then ScoreOf(t2) else Some("0/0"), "0/0")
  }

  /** `parseInt(score.split('/')[0]) || 0` */
  function ScoreRuns(score: string): int {
    OrZero(ParseIntOpt(Field(Split(score, '/'), 0)))
  }

  /** `parseInt(score.split('/')[1]) || 0` */
  function ScoreWickets(score: string): int {
    OrZero(ParseIntOpt(Field(Split(score, '/'), 1)))
  }

  /** The fields of "r/w" followed by more text: r, then w glued to the text's first field. */
  lemma SplitScore(r: string, w: string, rest: string)
    requires '/' !in r && '/' !in w
    ensures |Split(r + "/" + w + rest, '/')| >= 2
    ensures Split(r + "/" + w + rest, '/')[0] == r
    ensures Split(r + "/" + w + rest, '/')[1] == w + Split(rest, '/')[0]
  {
    var s := r + "/" + w + rest;
    var b := ['/'] + (w + rest);
    assert s == r + b;
    assert Split(b, '/') == [""] + Split(w + rest, '/') by {
      assert b[1..] == w + rest;
    }
    SplitPrepend(r, b, '/');
    assert r + "" == r;
    SplitPrepend(w, rest, '/');
  }

  /** The fields `ScoreRuns` and `ScoreWickets` read from "r/w" followed by more text. */
  lemma ScoreFields(runs: nat, wickets: nat, rest: string)
    ensures Field(Split(NatToString(runs) + "/" + NatToString(wickets) + rest, '/'), 0) == Some(NatToString(runs))
    ensures Field(Split(NatToString(runs) + "/" + NatToString(wickets) + rest, '/'), 1)
         == Some(NatToString(wickets) + Split(rest, '/')[0])
  {
    var r, w := NatToString(runs), NatToString(wickets);
    assert '/' !in r && '/' !in w by {
      assert !IsDigit('/', 10);
    }
    SplitScore(r, w, rest);
  }

  /** `parseInt` of a rendered number, read as a number that may be undefined. */
  lemma ParseIntOptOfNatToString(n: nat, rest: string)
    requires rest == [] || (!IsDigit(rest[0], 10) && (n > 0 || (rest[0] != 'x' && rest[0] != 'X')))
    ensures OrZero(ParseIntOpt(Some(NatToString(n) + rest))) == n
  {
    ParseIntOfNatToString(n, rest);
  }

  /** A score written "runs/wickets", possibly followed by text that does not continue
      the wickets number, parses back to its runs and wickets. */
  lemma ScoreRoundTrip(runs: nat, wickets: nat, rest: string)
    requires rest == [] || (!IsDigit(rest[0], 10) && (wickets > 0 || (rest[0] != 'x' && rest[0] != 'X')))
    ensures ScoreRuns(NatToString(runs) + "/" + NatToString(wickets) + rest) == runs
    ensures ScoreWickets(NatToString(runs) + "/" + NatToString(wickets) + rest) == wickets
  {
    ScoreFields(runs, wickets, rest);
    var tail := Split(rest, '/')[0];
    assert tail == [] || tail[0] == rest[0];
    ParseIntOptOfNatToString(runs, []);
    assert NatToString(runs) + [] == NatToString(runs);
    ParseIntOptOfNatToString(wickets, tail);
  }

  /** A first field without a digit reads as 0 runs. */
  lemma UnparseableRunsAreZero(score: string)
    requires forall i :: 0 <= i < |Split(score, '/')[0]| ==> !IsDigit(Split(score, '/')[0][i], 10)
    ensures ScoreRuns(score) == 0
  {
    ParseIntNoDigits(Split(score, '/')[0]);
  }

  /** When no team is found batting, its runs and wickets both read as 0. */
  lemma UnresolvedBattingTeamScoresZero(t1: Option<Team>, t2: Option<Team>, inn: Innings)
    requires BattingTeam(t1, t2, inn).None?
    ensures ScoreRuns(BattingScore(t1, t2, inn)) == 0
    ensures ScoreWickets(BattingScore(t1, t2, inn)) == 0
  {
    assert BattingScore(t1, t2, inn) == "0/0";
    ScoreRoundTrip(0, 0, []);
    assert NatToString(0) + "/" + NatToString(0) + [] == "0/0";
  }
}
