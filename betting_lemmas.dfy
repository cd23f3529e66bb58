/** What the generator promises about its output: it is never empty, each early-return
    state yields exactly its own questions, the live questions come in one fixed order
    with pairwise distinct ids (the ids are React keys), and every live rule appears
    exactly when its gate holds. */
module BettingLemmas {
  import opened Wrappers
  import opened Js
  import opened Cricket
  import opened Betting

  // ---------------------------------------------------------------- ids and their order

  /** Reads an id back from its text, by the first letters and the length, which tell the
      texts of `IdText` apart. */
  function IdOfText(s: string): Option<QuestionId> {
    if |s| < 9 then (if s == "fallback" then Some(FallbackId) else None)
    else if s[0] == 'f' then Some(FollowOnId)
    else if s[0] == 'e' then Some(ErrorFallbackId)
    else if s[0] == 'r' then Some(if |s| == 17 then RainDelayResumeId else RainDelayScoreId)
    else if s[0] == 'a' then Some(AbandonedResultId)
    else if s[0] == 'c' then
      if s[1] == 'o' then Some(CompletedMarginId)
      else if s[1] == 'u' then Some(if |s| == 20 then BatsmanRunsId else BatsmanBoundaryId)
      else if s[1] == 'a' then Some(DeclarationId)
      else Some(CenturyId(DigitsValue(s[8..], 10)))
    else if s[0] == 'p' then
      if s[1] == 'r' then Some(if |s| == 16 then PreMatchWinnerId else PreMatchFirstBoundaryId)
      else Some(PartnershipId)
    else if s[0] == 'g' then Some(GeneralWinnerId)
    else if s[0] == 'm' then Some(if |s| == 12 then MatchWinnerId else ImminentResultId)
    else if s[0] == 'b' then Some(BowlerWicketId)
    else if s[0] == 's' then Some(if s[1] == 'c' then MilestoneId else SessionSurvivalId)
    else if s[0] == 'n' then Some(NextOverId)
    else if s[0] == 't' then Some(TargetReachId)
    else if s[0] == 'i' then Some(InningsCompletionId)
    else None
  }

  lemma IdOfTextFixed(id: QuestionId)
    requires id in {FallbackId, ErrorFallbackId, RainDelayResumeId, RainDelayScoreId, AbandonedResultId, CompletedMarginId}
    ensures IdOfText(IdText(id)) == Some(id)
  {
  }

  lemma IdOfTextOpening(id: QuestionId)
    requires id in {PreMatchWinnerId, PreMatchFirstBoundaryId, GeneralWinnerId, MatchWinnerId, BatsmanRunsId}
    ensures IdOfText(IdText(id)) == Some(id)
  {
  }

  lemma IdOfTextPlayers(id: QuestionId)
    requires id in {BatsmanBoundaryId, BowlerWicketId, PartnershipId, MilestoneId, NextOverId}
    ensures IdOfText(IdText(id)) == Some(id)
  {
  }

  lemma IdOfTextTest(id: QuestionId)
    requires id in {DeclarationId, FollowOnId, TargetReachId, SessionSurvivalId, InningsCompletionId, ImminentResultId}
    ensures IdOfText(IdText(id)) == Some(id)
  {
  }

  lemma IdOfIdText(id: QuestionId)
    ensures IdOfText(IdText(id)) == Some(id)
  {
    match id
    case CenturyId(index) =>
      var s := IdText(id);
      assert s[0] == 'c' && s[1] == 'e' && s[8..] == NatToString(index);
      DigitsValueOfNatToString(index);
    case FallbackId | ErrorFallbackId | RainDelayResumeId | RainDelayScoreId | AbandonedResultId | CompletedMarginId =>
      IdOfTextFixed(id);
    case PreMatchWinnerId | PreMatchFirstBoundaryId | GeneralWinnerId | MatchWinnerId | BatsmanRunsId =>
      IdOfTextOpening(id);
    case BatsmanBoundaryId | BowlerWicketId | PartnershipId | MilestoneId | NextOverId =>
      IdOfTextPlayers(id);
    case _ =>
      IdOfTextTest(id);
  }

  /** Distinct ids have distinct texts, so distinct ids are distinct React keys. */
  lemma IdTextInjective(a: QuestionId, b: QuestionId)
    ensures IdText(a) == IdText(b) <==> a == b
  {
    IdOfIdText(a);
    IdOfIdText(b);
  }

  /** The ids of a list of questions, in order. */
  function Ids(qs: seq<Question>): (r: seq<QuestionId>)
    ensures |r| == |qs|
    ensures forall i :: 0 <= i < |qs| ==> r[i] == qs[i].id
  {
    seq(|qs|, i requires 0 <= i < |qs| => qs[i].id)
  }

  lemma IdsAppend(a: seq<Question>, b: seq<Question>)
    ensures Ids(a + b) == Ids(a) + Ids(b)
  {
  }

  /** The position of a live question's id in the order the live rules run; a century
      question ranks after every other one, by its batsman's index. Ids the live branch
      never produces rank 0. */
  function Rank(id: QuestionId): nat {
    match id
    case MatchWinnerId => 0
    case BatsmanRunsId => 1
    case BatsmanBoundaryId => 2
    case BowlerWicketId => 3
    case PartnershipId => 4
    case MilestoneId => 5
    case NextOverId => 6
    case DeclarationId => 7
    case FollowOnId => 8
    case TargetReachId => 9
    case SessionSurvivalId => 10
    case InningsCompletionId => 11
    case ImminentResultId => 12
    case CenturyId(index) => 13 + index
    case _ => 0
  }

  /** The ranks strictly increase along the list and lie in [lo, hi). */
  predicate Chain(ids: seq<QuestionId>, lo: nat, hi: nat)
    decreases |ids|
  {
    ids == [] || (lo <= Rank(ids[0]) < hi && Chain(ids[1..], Rank(ids[0]) + 1, hi))
  }

  /** The ranks strictly increase along the list. */
  predicate Ascending(ids: seq<QuestionId>) {
    forall i, j :: 0 <= i < j < |ids| ==> Rank(ids[i]) < Rank(ids[j])
  }

  /** No id occurs twice. */
  predicate Distinct(ids: seq<QuestionId>) {
    forall i, j :: 0 <= i < j < |ids| ==> ids[i] != ids[j]
  }

  lemma ChainWiden(ids: seq<QuestionId>, lo: nat, mid: nat, hi: nat)
    requires lo <= mid && Chain(ids, mid, hi)
    ensures Chain(ids, lo, hi)
  {
  }

  lemma {:induction false} ChainAppend(a: seq<QuestionId>, b: seq<QuestionId>, lo: nat, mid: nat, hi: nat)
    requires lo <= mid <= hi && Chain(a, lo, mid) && Chain(b, mid, hi)
    ensures Chain(a + b, lo, hi)
  {
    if a == [] {
      assert a + b == b;
      ChainWiden(b, lo, mid, hi);
    } else {
      assert (a + b)[0] == a[0] && (a + b)[1..] == a[1..] + b;
      ChainAppend(a[1..], b, Rank(a[0]) + 1, mid, hi);
    }
  }

  lemma {:induction false} ChainBounds(ids: seq<QuestionId>, lo: nat, hi: nat, id: QuestionId)
    requires Chain(ids, lo, hi)
    ensures id in ids ==> lo <= Rank(id) < hi
  {
    if ids != [] {
      ChainBounds(ids[1..], Rank(ids[0]) + 1, hi, id);
      assert id in ids ==> id == ids[0] || id in ids[1..];
    }
  }

  lemma {:induction false} ChainAscending(ids: seq<QuestionId>, lo: nat, hi: nat)
    requires Chain(ids, lo, hi)
    ensures Ascending(ids)
  {
    if ids != [] {
      var rest := ids[1..];
      ChainAscending(rest, Rank(ids[0]) + 1, hi);
      forall i, j | 0 <= i < j < |ids|
        ensures Rank(ids[i]) < Rank(ids[j])
      {
        assert ids[j] == rest[j - 1];
        ChainBounds(rest, Rank(ids[0]) + 1, hi, ids[j]);
        if 0 < i {
          assert ids[i] == rest[i - 1];
        }
      }
    }
  }

  lemma AscendingIsDistinct(ids: seq<QuestionId>)
    requires Ascending(ids)
    ensures Distinct(ids)
  {
  }

  // ---------------------------------------------------------------- the live ids

  /** Which live rules fire: one flag per gate, and `test` for the rules only a Test runs. */
  datatype Fired = Fired(
    batsman: bool, bowler: bool, pair: bool, milestone: bool, test: bool,
    declaration: bool, followOn: bool, target: bool, survival: bool, tail: bool, near: bool)

  function Fires(c: Context): Fired {
    Fired(FirstBatsmanNamed(c), BowlerNamed(c.bowler), PairNamed(c), BelowMilestone(c), c.format == 2,
          DeclarationOpen(c), FollowOnMargin(c), TargetInReach(c), WicketsInHand(c), TailExposed(c), ResultNear(c))
  }

  /** The ids of a rule: `ids` when its gate holds, none otherwise. */
  function Gated(gate: bool, ids: seq<QuestionId>): seq<QuestionId> {
    if gate then ids else []
  }

  function PlayerIds(f: Fired): seq<QuestionId> {
    Gated(f.batsman, [BatsmanRunsId, BatsmanBoundaryId]) + Gated(f.bowler, [BowlerWicketId])
    + Gated(f.pair, [PartnershipId])
  }

  function ProgressIds(f: Fired): seq<QuestionId> {
    Gated(f.milestone, [MilestoneId]) + Gated(f.bowler, [NextOverId])
  }

  function InningsIds(f: Fired): seq<QuestionId> {
    Gated(f.declaration, [DeclarationId]) + Gated(f.followOn, [FollowOnId]) + Gated(f.target, [TargetReachId])
  }

  function SessionIds(f: Fired): seq<QuestionId> {
    Gated(f.survival, [SessionSurvivalId]) + Gated(f.tail, [InningsCompletionId])
    + Gated(f.near, [ImminentResultId])
  }

  /** `century_<i>` for each of the first `n` batsmen still in, at index i, who reached 50. */
  function CenturyIds(active: seq<Batsman>, n: nat): seq<QuestionId>
    requires n <= |active|
  {
    if n == 0 then []
    else CenturyIds(active, n - 1) + Gated(ReachedFifty(active[n - 1]), [CenturyId(n - 1)])
  }

  /** The live ids for the rules that fire and the century ids. */
  function LiveIdsOf(f: Fired, centuries: seq<QuestionId>): seq<QuestionId> {
    [MatchWinnerId] + PlayerIds(f) + ProgressIds(f) + Gated(f.test, InningsIds(f) + SessionIds(f) + centuries)
  }

  /** The ids of the live questions, rule by rule: which rules fire and nothing else. */
  function LiveIds(c: Context): seq<QuestionId> {
    LiveIdsOf(Fires(c), CenturyIds(c.active, |c.active|))
  }

  lemma PlayerIdsExact(c: Context)
    ensures Ids(PlayerRules(c)) == PlayerIds(Fires(c))
  {
    IdsAppend(BatsmanRule(c), BowlerWicketRule(c));
    IdsAppend(BatsmanRule(c) + BowlerWicketRule(c), PartnershipRule(c));
  }

  lemma ProgressIdsExact(c: Context)
    ensures Ids(ProgressRules(c)) == ProgressIds(Fires(c))
  {
    IdsAppend(MilestoneRule(c), NextOverRule(c));
  }

  lemma InningsIdsExact(c: Context)
    ensures Ids(InningsRules(c)) == InningsIds(Fires(c))
  {
    IdsAppend(DeclarationRule(c), FollowOnRule(c));
    IdsAppend(DeclarationRule(c) + FollowOnRule(c), TargetChaseRule(c));
  }

  lemma SessionIdsExact(c: Context)
    ensures Ids(SessionRules(c)) == SessionIds(Fires(c))
  {
    IdsAppend(SessionSurvivalRule(c), InningsCompletionRule(c));
    IdsAppend(SessionSurvivalRule(c) + InningsCompletionRule(c), ImminentResultRule(c));
  }

  lemma {:induction false} CenturyIdsExact(active: seq<Batsman>, n: nat)
    requires n <= |active|
    ensures Ids(Centuries(active, n)) == CenturyIds(active, n)
  {
    if n > 0 {
      CenturyIdsExact(active, n - 1);
      IdsAppend(Centuries(active, n - 1),
        if ReachedFifty(active[n - 1]) then [Century(active[n - 1], n - 1)] else []);
    }
  }

  lemma TestIdsExact(c: Context)
    requires c.format == 2
    ensures Ids(TestRules(c)) == InningsIds(Fires(c)) + SessionIds(Fires(c)) + CenturyIds(c.active, |c.active|)
  {
    InningsIdsExact(c);
    SessionIdsExact(c);
    CenturyIdsExact(c.active, |c.active|);
    IdsAppend(InningsRules(c), SessionRules(c));
    IdsAppend(InningsRules(c) + SessionRules(c), CenturyRule(c));
  }

  lemma MatchWinnerIds(c: Context)
    ensures Ids(MatchWinnerRule(c)) == [MatchWinnerId]
  {
  }

  lemma FormatTestIds(c: Context)
    ensures Ids(if c.format == 2 then TestRules(c) else []) ==
      Gated(c.format == 2, InningsIds(Fires(c)) + SessionIds(Fires(c)) + CenturyIds(c.active, |c.active|))
  {
    if c.format == 2 {
      TestIdsExact(c);
    }
  }

  /** Exactly the rules whose gates hold contribute, each with its own ids, in rule order. */
  lemma LiveIdsExact(c: Context)
    ensures Ids(LiveQuestions(c)) == LiveIds(c)
  {
    var head, test := MatchWinnerRule(c), if c.format == 2 then TestRules(c) else [];
    MatchWinnerIds(c);
    PlayerIdsExact(c);
    ProgressIdsExact(c);
    FormatTestIds(c);
    IdsAppend(head, PlayerRules(c));
    IdsAppend(head + PlayerRules(c), ProgressRules(c));
    IdsAppend(head + PlayerRules(c) + ProgressRules(c), test);
  }

  // ---------------------------------------------------------------- the order of the live ids

  /** Three gated rules whose rank ranges follow each other keep the order. */
  lemma GatedChain(x: bool, a: seq<QuestionId>, y: bool, b: seq<QuestionId>, z: bool, d: seq<QuestionId>,
                   lo: nat, m1: nat, m2: nat, hi: nat)
    requires lo <= m1 <= m2 <= hi
    requires Chain(a, lo, m1) && Chain(b, m1, m2) && Chain(d, m2, hi)
    ensures Chain(Gated(x, a) + Gated(y, b) + Gated(z, d), lo, hi)
  {
    ChainAppend(Gated(x, a), Gated(y, b), lo, m1, m2);
    ChainAppend(Gated(x, a) + Gated(y, b), Gated(z, d), lo, m2, hi);
  }

  lemma GatedSingleChain(gate: bool, id: QuestionId)
    ensures Chain(Gated(gate, [id]), Rank(id), Rank(id) + 1)
  {
    assert [id][1..] == [];
  }

  lemma {:induction false} CenturyIdsChain(active: seq<Batsman>, n: nat)
    requires n <= |active|
    ensures Chain(CenturyIds(active, n), 13, 13 + n)
  {
    if n > 0 {
      CenturyIdsChain(active, n - 1);
      var last := CenturyId(n - 1);
      assert Rank(last) == 13 + n - 1;
      GatedSingleChain(ReachedFifty(active[n - 1]), last);
      ChainAppend(CenturyIds(active, n - 1), Gated(ReachedFifty(active[n - 1]), [last]),
        13, Rank(last), Rank(last) + 1);
    }
  }

  lemma PlayerIdsChain(f: Fired)
    ensures Chain(PlayerIds(f), 1, 5)
  {
    GatedChain(f.batsman, [BatsmanRunsId, BatsmanBoundaryId], f.bowler, [BowlerWicketId],
      f.pair, [PartnershipId], 1, 3, 4, 5);
  }

  lemma ProgressIdsChain(f: Fired)
    ensures Chain(ProgressIds(f), 5, 7)
  {
    ChainAppend(Gated(f.milestone, [MilestoneId]), Gated(f.bowler, [NextOverId]), 5, 6, 7);
  }

  lemma InningsIdsChain(f: Fired)
    ensures Chain(InningsIds(f), 7, 10)
  {
    GatedChain(f.declaration, [DeclarationId], f.followOn, [FollowOnId], f.target, [TargetReachId], 7, 8, 9, 10);
  }

  lemma SessionIdsChain(f: Fired)
    ensures Chain(SessionIds(f), 10, 13)
  {
    GatedChain(f.survival, [SessionSurvivalId], f.tail, [InningsCompletionId], f.near, [ImminentResultId],
      10, 11, 12, 13);
  }

  lemma LiveIdsOfChain(f: Fired, centuries: seq<QuestionId>, hi: nat)
    requires 13 <= hi && Chain(centuries, 13, hi)
    ensures Chain(LiveIdsOf(f, centuries), 0, hi)
  {
    PlayerIdsChain(f);
    ProgressIdsChain(f);
    InningsIdsChain(f);
    SessionIdsChain(f);
    ChainAppend([MatchWinnerId], PlayerIds(f), 0, 1, 5);
    ChainAppend([MatchWinnerId] + PlayerIds(f), ProgressIds(f), 0, 5, 7);
    ChainAppend(InningsIds(f), SessionIds(f), 7, 10, 13);
    ChainAppend(InningsIds(f) + SessionIds(f), centuries, 7, 13, hi);
    ChainAppend([MatchWinnerId] + PlayerIds(f) + ProgressIds(f),
      Gated(f.test, InningsIds(f) + SessionIds(f) + centuries), 0, 7, hi);
  }

  /** The live questions come in the order the rules run: match winner, batsman runs,
      batsman boundary, bowler wicket, partnership, milestone, next over, declaration,
      follow-on, target, session survival, innings completion, imminent result, then the
      century questions by batsman index; so no id occurs twice. */
  lemma LiveIdsAscending(c: Context)
    ensures Ascending(LiveIds(c)) && Distinct(LiveIds(c))
  {
    CenturyIdsChain(c.active, |c.active|);
    LiveIdsOfChain(Fires(c), CenturyIds(c.active, |c.active|), 13 + |c.active|);
    ChainAscending(LiveIds(c), 0, 13 + |c.active|);
  }

  // ---------------------------------------------------------------- the early returns

  /** The live questions open with the match-winner question: T20 odds 1.85 and 2.10,
      1.72 and 2.25 for any other format, and a draw at 4.50 in a Test, 15.00 otherwise. */
  lemma MatchWinnerFirst(c: Context)
    ensures |LiveQuestions(c)| >= 1 && LiveQuestions(c)[0].id == MatchWinnerId
    ensures LiveQuestions(c)[0].options == [
      Choice(Or(NameOf(c.team1), "Team 1"), if c.format == 3 then "1.85" else "1.72"),
      Choice(Or(NameOf(c.team2), "Team 2"), if c.format == 3 then "2.10" else "2.25"),
      Choice("Draw/Tie", if c.format == 2 then "4.50" else "15.00")]
  {
    var head := MatchWinnerRule(c);
    assert |head| == 1;
    var first := head + PlayerRules(c);
    assert first[0] == head[0];
    var second := first + ProgressRules(c);
    assert second[0] == head[0];
  }

  /** A missing snapshot, or one without teams, gets exactly the fallback question, and no
      other snapshot does. */
  lemma FallbackExactly(snapshot: Option<Match>)
    ensures Generate(snapshot) == [FallbackQuestion()] <==> snapshot.None? || snapshot.value.teams.None?
  {
    if snapshot.Some? && snapshot.value.teams.Some? {
      var m := snapshot.value;
      if Classify(m).Live? {
        GenerateLive(m);
        MatchWinnerFirst(SnapshotContext(m));
      }
    }
  }

  /** Every snapshot gets at least one question. */
  lemma NeverEmpty(snapshot: Option<Match>)
    ensures |Generate(snapshot)| >= 1
  {
    if snapshot.Some? && snapshot.value.teams.Some? && Classify(snapshot.value).Live? {
      var m := snapshot.value;
      GenerateLive(m);
      MatchWinnerFirst(SnapshotContext(m));
    }
  }

  /** Not live with status 5: the two rain-delay questions, whatever the scorecard, the
      result or the status of anything else; four options, then three. */
  lemma DelayedExclusive(m: Match)
    requires m.teams.Some? && !m.isLive && m.status == 5
    ensures Ids(Generate(Some(m))) == [RainDelayResumeId, RainDelayScoreId]
    ensures |Generate(Some(m))[0].options| == 4 && |Generate(Some(m))[1].options| == 3
  {
  }

  /** Status 3, live or not: the abandoned question alone. */
  lemma AbandonedExclusive(m: Match)
    requires m.teams.Some? && m.status == 3
    ensures Ids(Generate(Some(m))) == [AbandonedResultId]
  {
  }

  /** Neither delayed nor abandoned, with a result message: the margin question alone. */
  lemma CompletedExclusive(m: Match)
    requires m.teams.Some? && !(!m.isLive && m.status == 5) && m.status != 3
    requires Truthy(m.resultMessage)
    ensures Ids(Generate(Some(m))) == [CompletedMarginId]
  {
  }

  /** Otherwise, not live with a missing or empty scorecard: the two pre-match questions. */
  lemma NotStartedExclusive(m: Match)
    requires m.teams.Some? && m.status != 5 && m.status != 3 && !Truthy(m.resultMessage)
    requires !m.isLive && (m.scorecard.None? || m.scorecard.value == [])
    ensures Ids(Generate(Some(m))) == [PreMatchWinnerId, PreMatchFirstBoundaryId]
  {
  }
  // ---------------------------------------------------------------- the live gates

  lemma {:induction false} CenturyIdsOnly(active: seq<Batsman>, n: nat)
    requires n <= |active|
    ensures forall id :: id in CenturyIds(active, n) ==> id.CenturyId?
  {
    if n > 0 {
      CenturyIdsOnly(active, n - 1);
    }
  }

  lemma InAppend(a: seq<QuestionId>, b: seq<QuestionId>, x: QuestionId)
    ensures x in a + b <==> x in a || x in b
  {
  }

  lemma InGated(gate: bool, ids: seq<QuestionId>, x: QuestionId)
    ensures x in Gated(gate, ids) <==> gate && x in ids
  {
  }

  lemma InGated3(x: bool, a: seq<QuestionId>, y: bool, b: seq<QuestionId>, z: bool, d: seq<QuestionId>,
                 id: QuestionId)
    ensures id in Gated(x, a) + Gated(y, b) + Gated(z, d) <==> (x && id in a) || (y && id in b) || (z && id in d)
  {
    InAppend(Gated(x, a) + Gated(y, b), Gated(z, d), id);
    InAppend(Gated(x, a), Gated(y, b), id);
    InGated(x, a, id);
    InGated(y, b, id);
    InGated(z, d, id);
  }

  /** An id is a live id exactly when the match-winner rule, a rule group that runs or a
      century question asks it. */
  lemma LiveIdsOfMember(f: Fired, centuries: seq<QuestionId>, id: QuestionId)
    ensures id in LiveIdsOf(f, centuries) <==>
      id == MatchWinnerId || id in PlayerIds(f) || id in ProgressIds(f)
      || (f.test && (id in InningsIds(f) || id in SessionIds(f) || id in centuries))
  {
    var player, progress, innings, session := PlayerIds(f), ProgressIds(f), InningsIds(f), SessionIds(f);
    InAppend([MatchWinnerId] + player + progress, Gated(f.test, innings + session + centuries), id);
    InAppend([MatchWinnerId] + player, progress, id);
    InAppend([MatchWinnerId], player, id);
    InGated(f.test, innings + session + centuries, id);
    InAppend(innings + session, centuries, id);
    InAppend(innings, session, id);
  }

  lemma GroupMembers(f: Fired, id: QuestionId)
    ensures id in PlayerIds(f) <==>
      (f.batsman && (id == BatsmanRunsId || id == BatsmanBoundaryId)) || (f.bowler && id == BowlerWicketId)
      || (f.pair && id == PartnershipId)
    ensures id in ProgressIds(f) <==> (f.milestone && id == MilestoneId) || (f.bowler && id == NextOverId)
    ensures id in InningsIds(f) <==>
      (f.declaration && id == DeclarationId) || (f.followOn && id == FollowOnId) || (f.target && id == TargetReachId)
    ensures id in SessionIds(f) <==>
      (f.survival && id == SessionSurvivalId) || (f.tail && id == InningsCompletionId)
      || (f.near && id == ImminentResultId)
  {
    InGated3(f.batsman, [BatsmanRunsId, BatsmanBoundaryId], f.bowler, [BowlerWicketId], f.pair, [PartnershipId], id);
    InAppend(Gated(f.milestone, [MilestoneId]), Gated(f.bowler, [NextOverId]), id);
    InGated(f.milestone, [MilestoneId], id);
    InGated(f.bowler, [NextOverId], id);
    InGated3(f.declaration, [DeclarationId], f.followOn, [FollowOnId], f.target, [TargetReachId], id);
    InGated3(f.survival, [SessionSurvivalId], f.tail, [InningsCompletionId], f.near, [ImminentResultId], id);
  }

  /** Apart from the century questions, an id is a live id exactly when the flag of the
      rule that asks it is set (and, for the Test-only rules, the match is a Test). */
  lemma LiveIdsOfFlags(f: Fired, centuries: seq<QuestionId>, id: QuestionId)
    requires forall x :: x in centuries ==> x.CenturyId?
    requires !id.CenturyId?
    ensures id in LiveIdsOf(f, centuries) <==>
      id == MatchWinnerId
      || (f.batsman && (id == BatsmanRunsId || id == BatsmanBoundaryId)) || (f.bowler && id == BowlerWicketId)
      || (f.pair && id == PartnershipId) || (f.milestone && id == MilestoneId) || (f.bowler && id == NextOverId)
      || (f.test && ((f.declaration && id == DeclarationId) || (f.followOn && id == FollowOnId)
                     || (f.target && id == TargetReachId) || (f.survival && id == SessionSurvivalId)
                     || (f.tail && id == InningsCompletionId) || (f.near && id == ImminentResultId)))
  {
    LiveIdsOfMember(f, centuries, id);
    GroupMembers(f, id);
  }

  /** A century id is a live id exactly in a Test among whose century ids it is. */
  lemma CenturyInLiveIdsOf(f: Fired, centuries: seq<QuestionId>, i: nat)
    ensures CenturyId(i) in LiveIdsOf(f, centuries) <==> f.test && CenturyId(i) in centuries
  {
    LiveIdsOfMember(f, centuries, CenturyId(i));
    GroupMembers(f, CenturyId(i));
  }

  lemma {:induction false} CenturyIdsMember(active: seq<Batsman>, n: nat, i: nat)
    requires n <= |active|
    ensures CenturyId(i) in CenturyIds(active, n) <==> i < n && ReachedFifty(active[i])
  {
    if n > 0 {
      CenturyIdsMember(active, n - 1, i);
    }
  }

  /** The two questions on the first batsman still in appear exactly when that batsman has a
      name, the partnership question exactly when the first two have names. */
  lemma BatsmanGates(c: Context)
    ensures BatsmanRunsId in LiveIds(c) <==> FirstBatsmanNamed(c)
    ensures BatsmanBoundaryId in LiveIds(c) <==> FirstBatsmanNamed(c)
    ensures PartnershipId in LiveIds(c) <==> PairNamed(c)
  {
    var f, centuries := Fires(c), CenturyIds(c.active, |c.active|);
    CenturyIdsOnly(c.active, |c.active|);
    LiveIdsOfFlags(f, centuries, BatsmanRunsId);
    LiveIdsOfFlags(f, centuries, BatsmanBoundaryId);
    LiveIdsOfFlags(f, centuries, PartnershipId);
  }

  /** The bowler-wicket and next-over questions appear exactly when the current bowler has a
      name; the milestone question exactly while the score is below the format's target. */
  lemma BowlerGates(c: Context)
    ensures BowlerWicketId in LiveIds(c) <==> BowlerNamed(c.bowler)
    ensures NextOverId in LiveIds(c) <==> BowlerNamed(c.bowler)
    ensures MilestoneId in LiveIds(c) <==> BelowMilestone(c)
  {
    var f, centuries := Fires(c), CenturyIds(c.active, |c.active|);
    CenturyIdsOnly(c.active, |c.active|);
    LiveIdsOfFlags(f, centuries, BowlerWicketId);
    LiveIdsOfFlags(f, centuries, NextOverId);
    LiveIdsOfFlags(f, centuries, MilestoneId);
  }

  /** The declaration, follow-on and target questions appear exactly in a Test whose gate holds. */
  lemma InningsGates(c: Context)
    ensures DeclarationId in LiveIds(c) <==> c.format == 2 && DeclarationOpen(c)
    ensures FollowOnId in LiveIds(c) <==> c.format == 2 && FollowOnMargin(c)
    ensures TargetReachId in LiveIds(c) <==> c.format == 2 && TargetInReach(c)
  {
    var f, centuries := Fires(c), CenturyIds(c.active, |c.active|);
    CenturyIdsOnly(c.active, |c.active|);
    LiveIdsOfFlags(f, centuries, DeclarationId);
    LiveIdsOfFlags(f, centuries, FollowOnId);
    LiveIdsOfFlags(f, centuries, TargetReachId);
  }

  /** The session-survival, innings-completion and imminent-result questions appear exactly in
      a Test whose gate holds. */
  lemma SessionGates(c: Context)
    ensures SessionSurvivalId in LiveIds(c) <==> c.format == 2 && WicketsInHand(c)
    ensures InningsCompletionId in LiveIds(c) <==> c.format == 2 && TailExposed(c)
    ensures ImminentResultId in LiveIds(c) <==> c.format == 2 && ResultNear(c)
  {
    var f, centuries := Fires(c), CenturyIds(c.active, |c.active|);
    CenturyIdsOnly(c.active, |c.active|);
    LiveIdsOfFlags(f, centuries, SessionSurvivalId);
    LiveIdsOfFlags(f, centuries, InningsCompletionId);
    LiveIdsOfFlags(f, centuries, ImminentResultId);
  }

  /** A century question for the batsman at index i appears exactly in a Test where that
      batsman is still in and has reached 50. */
  lemma CenturyGate(c: Context, i: nat)
    ensures CenturyId(i) in LiveIds(c) <==> c.format == 2 && i < |c.active| && ReachedFifty(c.active[i])
  {
    CenturyInLiveIdsOf(Fires(c), CenturyIds(c.active, |c.active|), i);
    CenturyIdsMember(c.active, |c.active|, i);
  }

  /** Every century question is about a batsman still in who reached 50, under that
      batsman's index, at odds 1.80 and 2.00 from 80 runs on and 3.00 and 1.35 below. */
  lemma {:induction false} CenturyOdds(active: seq<Batsman>, n: nat, q: Question)
    requires n <= |active| && q in Centuries(active, n)
    ensures q.id.CenturyId? && q.id.index < n && ReachedFifty(active[q.id.index])
    ensures q.question == CenturyFor(active[q.id.index].playerName)
    ensures q.options == if active[q.id.index].runs.value >= 80 then YesNo("1.80", "2.00") else YesNo("3.00", "1.35")
  {
    if q in Centuries(active, n - 1) {
      CenturyOdds(active, n - 1, q);
    } else {
      assert q == Century(active[n - 1], n - 1);
    }
  }

  // ---------------------------------------------------------------- whole snapshots

  /** A live snapshot gets the live rules' questions for its context. */
  lemma GenerateLive(m: Match)
    requires m.teams.Some? && Classify(m).Live?
    ensures Generate(Some(m)) == LiveQuestions(SnapshotContext(m))
  {
  }

  /** What a live snapshot's context reads: the format, the runs parsed from the batting
      side's score and the batsmen still in, all from the current innings. */
  lemma SnapshotContextReads(m: Match)
    requires m.teams.Some? && Classify(m).Live?
    ensures var inn := CurrentInnings(ScorecardData(m));
      inn.Some? && SnapshotContext(m).format == m.format && SnapshotContext(m).active == ActiveBatsmen(inn) &&
      SnapshotContext(m).runs == ScoreRuns(BattingScore(m.teams.value.t1, m.teams.value.t2, inn.value))
  {
  }

  /** A century question among the live questions comes from the century watch of a Test. */
  lemma CenturyQuestionOfLive(c: Context, q: Question)
    requires q in LiveQuestions(c) && q.id.CenturyId?
    ensures c.format == 2 && |c.active| > 0 && q in Centuries(c.active, |c.active|)
  {
    assert q !in MatchWinnerRule(c) && q !in PlayerRules(c) && q !in ProgressRules(c);
    assert q !in InningsRules(c) && q !in SessionRules(c);
  }

  /** The live snapshot's ids are the live ids of its context. */
  lemma LiveSnapshotIds(m: Match)
    requires m.teams.Some? && Classify(m).Live?
    ensures Ids(Generate(Some(m))) == LiveIds(SnapshotContext(m))
  {
    GenerateLive(m);
    LiveIdsExact(SnapshotContext(m));
  }

  lemma FixedDistinct(state: MatchState, n1: Option<string>, n2: Option<string>)
    requires EarlyReturn(state)
    ensures Distinct(Ids(FixedQuestions(state, n1, n2)))
  {
  }

  /** No snapshot gets two questions with the same id, so the React keys of the rendered
      cards are unique; a live snapshot's questions come in rule order. */
  lemma GenerateDistinct(snapshot: Option<Match>)
    ensures Distinct(Ids(Generate(snapshot)))
    ensures snapshot.Some? && snapshot.value.teams.Some? && Classify(snapshot.value).Live? ==>
      Ascending(Ids(Generate(snapshot)))
  {
    if snapshot.Some? && snapshot.value.teams.Some? {
      var m := snapshot.value;
      var state := Classify(m);
      if EarlyReturn(state) {
        FixedDistinct(state, NameOf(m.teams.value.t1), NameOf(m.teams.value.t2));
      } else if state.Live? {
        var c := SnapshotContext(m);
        LiveSnapshotIds(m);
        LiveIdsAscending(c);
      }
    }
  }

  lemma LiveOpening(m: Match)
    requires m.teams.Some? && Classify(m).Live?
    ensures |Generate(Some(m))| >= 1 && Generate(Some(m))[0].id == MatchWinnerId
  {
    GenerateLive(m);
    MatchWinnerFirst(SnapshotContext(m));
  }

  lemma OtherOpening(m: Match)
    requires m.teams.Some? && !Classify(m).Live?
    ensures |Generate(Some(m))| >= 1 && Generate(Some(m))[0].id != MatchWinnerId
  {
  }

  /** A snapshot with teams opens with the match-winner question exactly when it is live. */
  lemma MatchWinnerFirstIffLive(m: Match)
    requires m.teams.Some?
    ensures |Generate(Some(m))| >= 1
    ensures Generate(Some(m))[0].id == MatchWinnerId <==> Classify(m).Live?
  {
    if Classify(m).Live? {
      LiveOpening(m);
    } else {
      OtherOpening(m);
    }
  }

  /** Neither delayed, abandoned, completed nor pre-match, with a scorecard but not live or
      without a current innings: the general winner question alone. */
  lemma GeneralWinnerExactly(m: Match)
    requires m.teams.Some? && !(!m.isLive && m.status == 5) && m.status != 3 && !Truthy(m.resultMessage)
    requires m.isLive || ScorecardData(m).Some?
    requires !(m.isLive && CurrentInnings(ScorecardData(m)).Some?)
    ensures Ids(Generate(Some(m))) == [GeneralWinnerId]
  {
  }

  /** In a live snapshot the milestone question is asked exactly while the batting side's
      parsed runs are below the format's target. */
  lemma MilestoneInSnapshot(m: Match)
    requires m.teams.Some? && Classify(m).Live?
    ensures var inn := CurrentInnings(ScorecardData(m)).value;
      MilestoneId in Ids(Generate(Some(m))) <==>
      ScoreRuns(BattingScore(m.teams.value.t1, m.teams.value.t2, inn)) < MilestoneRuns(m.format)
  {
    var c := SnapshotContext(m);
    LiveSnapshotIds(m);
    BowlerGates(c);
  }

  /** The follow-on question is never asked: its gate needs exactly one innings and a
      previous one, and a previous innings exists only from two innings on. */
  lemma FollowOnNeverAsked(snapshot: Option<Match>)
    ensures FollowOnId !in Ids(Generate(snapshot))
  {
    if snapshot.Some? && snapshot.value.teams.Some? && Classify(snapshot.value).Live? {
      FollowOnNotLive(snapshot.value);
    }
  }

  lemma FollowOnNotLive(m: Match)
    requires m.teams.Some? && Classify(m).Live?
    ensures FollowOnId !in Ids(Generate(Some(m)))
  {
    var c := SnapshotContext(m);
    LiveSnapshotIds(m);
    InningsGates(c);
    assert !FollowOnMargin(c);
  }

  /** In a live snapshot the century question for the batsman at index i of those still in
      is asked exactly in a Test where that batsman has at least 50. */
  lemma CenturyInSnapshot(m: Match, i: nat)
    requires m.teams.Some? && Classify(m).Live?
    ensures var active := ActiveBatsmen(CurrentInnings(ScorecardData(m)));
      CenturyId(i) in Ids(Generate(Some(m))) <==> m.format == 2 && i < |active| && ReachedFifty(active[i])
  {
    var c := SnapshotContext(m);
    SnapshotContextReads(m);
    LiveSnapshotIds(m);
    CenturyGate(c, i);
  }

  /** Every century question a live snapshot gets names the batsman still in at its index,
      who has at least 50, at odds 1.80 and 2.00 from 80 runs on and 3.00 and 1.35 below. */
  lemma CenturyOddsInSnapshot(m: Match, q: Question)
    requires m.teams.Some? && Classify(m).Live? && q in Generate(Some(m)) && q.id.CenturyId?
    ensures var active := ActiveBatsmen(CurrentInnings(ScorecardData(m)));
      m.format == 2 && q.id.index < |active| && ReachedFifty(active[q.id.index]) &&
      q.question == CenturyFor(active[q.id.index].playerName) &&
      q.options == if active[q.id.index].runs.value >= 80 then YesNo("1.80", "2.00") else YesNo("3.00", "1.35")
  {
    var c := SnapshotContext(m);
    SnapshotContextReads(m);
    GenerateLive(m);
    CenturyQuestionOfLive(c, q);
    CenturyOdds(c.active, |c.active|, q);
  }
}
