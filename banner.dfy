/** The match page's format label and the heading it shows above the betting questions.
    The heading repeats the generator's state priority on its own, and tests whether the
    `scorecard` field exists where the generator tests whether its first entry does. */
module Banner {
  import opened Wrappers
  import opened Js
  import opened Cricket
  import opened Betting
  import opened BettingLemmas

  // ---------------------------------------------------------------- format names

  /** `getFormatName`: 1 is an ODI, 2 a Test, 3 a T20, anything else "Unknown". */
  function FormatName(format: int): (name: string)
    ensures name == "Unknown" <==> format != 1 && format != 2 && format != 3
    ensures |name| >= 3
  {
    match format
    case 1 => "ODI"
    case 2 => "Test"
    case 3 => "T20"
    case _ => "Unknown"
  }

  /** The format code a label names, if any. */
  function FormatOfName(name: string): Option<int> {
    if name == "ODI" then Some(1)
    else if name == "Test" then Some(2)
    else if name == "T20" then Some(3)
    else None
  }

  /** The label of each known format leads back to it, and "Unknown" to none. */
  lemma FormatNameRoundTrip(format: int)
    ensures FormatOfName(FormatName(format)) ==
      (if format == 1 || format == 2 || format == 3 then Some(format) else None)
  {
  }

  /** Two known formats share a label only when they are the same format. */
  lemma FormatNameInjective(a: int, b: int)
    requires a == 1 || a == 2 || a == 3
    ensures FormatName(a) == FormatName(b) <==> a == b
  {
    FormatNameRoundTrip(a);
    FormatNameRoundTrip(b);
  }

  /** The milestone the live rules set is the one of the format the page names: 150 for
      a T20, 250 for an ODI, 300 for a Test, and 150 when the page says "Unknown". */
  lemma MilestoneOfNamedFormat(format: int)
    ensures MilestoneRuns(format) ==
      (if FormatName(format) == "ODI" then 250 else if FormatName(format) == "Test" then 300 else 150)
  {
  }

  // ---------------------------------------------------------------- the betting heading

  /** The headings of the betting section. Their text is "Match Delayed - Weather
      Questions", "Match Abandoned - Result Questions", "Match Completed - Analysis
      Questions", "Pre-Match Betting Questions" and "Live Betting Questions". */
  datatype Heading = DelayedHeading | AbandonedHeading | CompletedHeading | PreMatchHeading | LiveHeading

  function HeadingText(h: Heading): string {
    match h
    case DelayedHeading => "Match Delayed - Weather Questions"
    case AbandonedHeading => "Match Abandoned - Result Questions"
    case CompletedHeading => "Match Completed - Analysis Questions"
    case PreMatchHeading => "Pre-Match Betting Questions"
    case LiveHeading => "Live Betting Questions"
  }

  /** The heading for each state of the generator: the live heading also covers the state
      that falls through to the general question, as the page has no heading of its own
      for it. */
  function HeadingOf(state: MatchState): Heading {
    match state
    case Delayed => DelayedHeading
    case Abandoned => AbandonedHeading
    case Completed => CompletedHeading
    case NotStarted => PreMatchHeading
    case Live => LiveHeading
    case Indeterminate => LiveHeading
  }

  /** The heading as the page computes it: pre-match only when the match is not live and
      the `scorecard` field is missing altogether. */
  function HeadingAsWritten(m: Match): (h: Heading)
    ensures h == PreMatchHeading ==> Classify(m) == NotStarted
    ensures h != HeadingOf(Classify(m)) ==> h == LiveHeading && Classify(m) == NotStarted
  {
    if !m.isLive && m.status == 5 then DelayedHeading
    else if m.status == 3 then AbandonedHeading
    else if Truthy(m.resultMessage) then CompletedHeading
    else if !m.isLive && m.scorecard.None? then PreMatchHeading
    else LiveHeading
  }

  /** The heading with the generator's test: pre-match when the match is not live and the
      scorecard has no first entry (missing or empty). */
  function CorrectedHeading(m: Match): (h: Heading)
    ensures h == HeadingOf(Classify(m))
  {
    if !m.isLive && m.status == 5 then DelayedHeading
    else if m.status == 3 then AbandonedHeading
    else if Truthy(m.resultMessage) then CompletedHeading
    else if !m.isLive && ScorecardData(m).None? then PreMatchHeading
    else LiveHeading
  }

  /** The snapshots whose heading disagrees with the generator's state: nothing earlier
      applies, the match is not live and its scorecard is present but empty. */
  predicate EmptyScorecardBeforeStart(m: Match) {
    !(!m.isLive && m.status == 5) && m.status != 3 && !Truthy(m.resultMessage)
    && !m.isLive && m.scorecard == Some([])
  }

  /** The page's heading matches the generator's state except on a present but empty
      scorecard before the start. */
  lemma HeadingAsWrittenAgrees(m: Match)
    ensures HeadingAsWritten(m) == HeadingOf(Classify(m)) <==> !EmptyScorecardBeforeStart(m)
  {
  }

  /** On such a snapshot the page announces live betting while the questions below it are
      the two pre-match ones. */
  lemma EmptyScorecardMislabelled(m: Match)
    requires m.teams.Some? && EmptyScorecardBeforeStart(m)
    ensures HeadingAsWritten(m) == LiveHeading
    ensures Ids(Generate(Some(m))) == [PreMatchWinnerId, PreMatchFirstBoundaryId]
  {
    assert Classify(m) == NotStarted;
  }

  /** A concrete snapshot that shows it: two named teams, not live, no status of note, no
      result, and a scorecard that is an empty list. */
  lemma EmptyScorecardExample()
    ensures var m := Match(Some(Teams(Some(Team(Some("A"), None)), Some(Team(Some("B"), None)))),
                           false, 2, 1, None, Some([]));
      HeadingAsWritten(m) == LiveHeading && HeadingOf(Classify(m)) == PreMatchHeading
  {
  }

  /** For a snapshot without teams the heading, as written or corrected, still follows the
      state, while the questions below it are the single fallback card: not live with
      status 5 shows the delayed heading above `fallback`. */
  lemma TeamlessHeadingOverFallback(m: Match)
    requires m.teams.None? && !m.isLive && m.status == 5
    ensures HeadingAsWritten(m) == DelayedHeading && CorrectedHeading(m) == DelayedHeading
    ensures Ids(Generate(Some(m))) == [FallbackId]
  {
  }

  /** For a snapshot with teams, the corrected heading names the state whose questions
      are shown. */
  lemma CorrectedHeadingMatches(m: Match)
    requires m.teams.Some?
    ensures CorrectedHeading(m) == PreMatchHeading <==>
      Ids(Generate(Some(m))) == [PreMatchWinnerId, PreMatchFirstBoundaryId]
    ensures CorrectedHeading(m) == DelayedHeading <==>
      Ids(Generate(Some(m))) == [RainDelayResumeId, RainDelayScoreId]
  {
    match Classify(m)
    case Delayed => DelayedExclusive(m);
    case Abandoned => AbandonedExclusive(m);
    case Completed => CompletedExclusive(m);
    case NotStarted => NotStartedExclusive(m);
    case Live =>
      LiveOpening(m);
      assert Ids(Generate(Some(m)))[0] == MatchWinnerId;
    case Indeterminate => GeneralWinnerExactly(m);
  }
}
