# Betting questions of the cricket match page

This project models the betting-question generator of a cricket live-score web app and
proves what it promises. The generator is `generateBettingQuestions` in
`src/components/MatchDetails.jsx`. It takes a match snapshot, which may be missing, and
returns an ordered list of question cards `{id, question, options[{text, odds}]}`.

It works in two stages:

- **Classification.** The snapshot is put into exactly one state, in this priority
  order: delayed, abandoned, completed, not started, live, otherwise indeterminate.
  Each of the first four returns a fixed list at once.
- **Live rules.** Only in the live state, a fixed and ordered list of independently
  gated rules runs, and what they produce is concatenated.

The model also covers the helpers the live rules read:

- current-innings selection;
- the previous innings;
- the batsmen still in and the current bowler;
- the batting team and the parsed `runs/wickets` score;
- the page's format label `getFormatName`;
- the heading the page shows above the questions.

Files:

- `wrappers.dfy`: `Option`.
- `js.dfy` (module `Js`): the JavaScript semantics the generator depends on:
  - truthiness of values that may be `undefined`;
  - the `||` default and `${undefined}`;
  - `parseInt` with no radix: white space, sign, `0x` prefix, NaN as `None`;
  - `String.prototype.split` on one character, and decimal rendering.
- `cricket.dfy` (module `Cricket`): the snapshot datatypes and the facts derived from a
  snapshot before any decision.
- `betting.dfy` (module `Betting`): the question records, `Classify`, the live rules over
  a `Context` of derived facts, and `Generate`, the generator as a function. It also holds
  `GenerateBettingQuestions`, the generator as the page runs it: a list built up by
  appends, early returns and a loop over the batsmen still in. That method is proved
  equal to `Generate`.
- `betting_lemmas.dfy` (module `BettingLemmas`): the output's properties:
  - never empty, and exclusive early returns;
  - the live ids rule by rule, and their order, through `Rank` and `Chain`;
  - unique ids, and the gate of every live rule as an if-and-only-if;
  - the follow-on question is never asked;
  - the century watch.
- `banner.dfy` (module `Banner`): `getFormatName` and the betting heading, as written and
  corrected.

Question ids are the datatype `QuestionId`; `IdText` spells each one out exactly as the
page does (`century_<i>` included), and `IdTextInjective` shows that distinct ids are
distinct keys. Question texts are the datatype `Prompt`, which carries the values each
text interpolates; `Render` spells them out. The options are kept as literal `Choice`
records with the odds strings of the source.

## Model

| member | source | states |
|---|---|---|
| Js.TrimStart | src/components/MatchDetails.jsx:209-210 | `parseInt` drops exactly the leading run of white space and line terminators: what remains is a suffix starting with a non-space, and everything dropped is space |
| Js.DigitPrefix | src/components/MatchDetails.jsx:209-210 | the digits `parseInt` reads are the longest digit prefix: every character is a digit and the next one is not |
| Js.ParseInt | src/components/MatchDetails.jsx:209-210 | `parseInt` with no radix: white space skipped, an optional sign, a `0x` prefix read as hexadecimal, then the longest digit prefix, and NaN (`None`) when there is none; its behaviour is pinned by `ParseIntNoDigits`, `ParseIntOfNatToString` and `ParseIntNegative` |
| Js.ParseIntNoDigits | src/components/MatchDetails.jsx:209-210 | a field without a single decimal digit parses to NaN, which `|| 0` turns into 0 |
| Js.NatToString | src/components/MatchDetails.jsx:420 | the rendering of an index in `century_${index}` is non-empty, all decimal digits, and has no leading zero except for 0 |
| Js.DigitsValueOfNatToString | src/components/MatchDetails.jsx:420 | reading the rendered digits gives the number back |
| Js.NatToStringInjective | src/components/MatchDetails.jsx:420 | distinct indexes render differently, so distinct century ids are distinct strings |
| Js.ParseIntOfNatToString | src/components/MatchDetails.jsx:209-210 | `parseInt` reads back a rendered natural number whatever non-digit text follows it (no `x` after a lone 0) |
| Js.ParseIntNegative | src/components/MatchDetails.jsx:209-210 | a leading minus sign negates the magnitude `parseInt` reads |
| Js.ParseIntOfIntToString | src/components/MatchDetails.jsx:209-210 | `parseInt` reads back every rendered integer, negative ones included |
| Js.Split | src/components/MatchDetails.jsx:209-210 | `split('/')` yields at least one field, no field holds the separator, and the first field is a prefix of the text |
| Js.JoinSplit | src/components/MatchDetails.jsx:209-210 | joining the fields of a split with the separator gives the text back |
| Js.SplitJoin | src/components/MatchDetails.jsx:209-210 | splitting joined separator-free fields gives the fields back |
| Js.SplitPrepend | src/components/MatchDetails.jsx:209-210 | text without a separator is glued to the first field of what follows it |
| Cricket.FindSelected | src/components/MatchDetails.jsx:79-82 | `innings.find` returns the first innings whose team key (`t1` when its team name equals the scorecard's team1 name, else `t2`) is a prefix of `inningsId`, or none when no innings is selected |
| Cricket.ScorecardData | src/components/MatchDetails.jsx:69 | the snapshot's first scorecard entry, none when the scorecard is missing or an empty list |
| Cricket.CurrentInnings | src/components/MatchDetails.jsx:72-90 | a current innings exists exactly when the innings list is present and non-empty |
| Cricket.CurrentInningsSelection | src/components/MatchDetails.jsx:76-90 | with a truthy `inningsId` the current innings is the first innings it selects; when the id is falsy or selects none, it is the last innings |
| Cricket.AllInnings | src/components/MatchDetails.jsx:93 | the innings list of the first scorecard entry, or the empty list when any step is missing |
| Cricket.PreviousInnings | src/components/MatchDetails.jsx:93-94 | a previous innings exists exactly when there are more than one |
| Cricket.ActiveBatsmen | src/components/MatchDetails.jsx:103-106 | `getActiveBatsmen`: a batsman is among those returned exactly when the current innings has a batting list holding that batsman and the batsman is not out |
| Cricket.NotOut | src/components/MatchDetails.jsx:103-106 | the batsmen still in are exactly the batting entries that are not out, and there are no more of them than entries |
| Cricket.NotOutSingle | src/components/MatchDetails.jsx:105 | a single entry is kept exactly when it is not out |
| Cricket.NotOutAppend | src/components/MatchDetails.jsx:105 | the filter keeps the list's order: the entries still in of two joined parts are those of the first part, then those of the second; with `NotOutSingle` this fixes each batsman's index among those still in, the index `century_i` uses |
| Cricket.CurrentBowler | src/components/MatchDetails.jsx:108-111 | `getCurrentBowler`: a bowler it returns is one of the current innings' bowling list (the last one, by `CurrentBowlerIsLastIntroduced`) |
| Cricket.CurrentBowlerIsLastIntroduced | src/components/MatchDetails.jsx:108-111 | the current bowler is the last entry of the bowling list |
| Cricket.NoBowlerWithoutBowling | src/components/MatchDetails.jsx:108-111 | there is no current bowler exactly when there is no innings or its bowling list is missing or empty |
| Cricket.BattingTeam | src/components/MatchDetails.jsx:201-207 | the batting team is team 1 when the innings' team name equals team 1's name, even when team 1 is absent and both names are undefined (then none); otherwise team 2 when its name matches; otherwise none |
| Cricket.BattingScore | src/components/MatchDetails.jsx:201-207 | the score string is the batting team's score when that is a non-empty string, and `'0/0'` when the score is falsy or no batting team is found |
| Cricket.ScoreRuns | src/components/MatchDetails.jsx:209 | `parseInt` of the text before the first `/`, with NaN read as 0; `ScoreRoundTrip` and `UnparseableRunsAreZero` pin it |
| Cricket.ScoreWickets | src/components/MatchDetails.jsx:210 | `parseInt` of the text between the first and second `/`, with NaN or a missing field read as 0; `ScoreRoundTrip` pins it |
| Cricket.SplitScore | src/components/MatchDetails.jsx:209-210 | the fields of `r/w` followed by text are `r`, then `w` glued to the text's first field |
| Cricket.ScoreFields | src/components/MatchDetails.jsx:209-210 | fields 0 and 1 of a rendered `runs/wickets` score are the rendered runs and the wickets with what follows them |
| Cricket.ParseIntOptOfNatToString | src/components/MatchDetails.jsx:209-210 | `parseInt(...) || 0` of a rendered number reads the number |
| Cricket.ScoreRoundTrip | src/components/MatchDetails.jsx:206-210 | a score rendered as `runs/wickets` parses back to the same runs and wickets |
| Cricket.UnparseableRunsAreZero | src/components/MatchDetails.jsx:209 | a first field without a digit counts as 0 runs |
| Cricket.UnresolvedBattingTeamScoresZero | src/components/MatchDetails.jsx:201-210 | when neither team's name matches the innings, the score is `0/0`: 0 runs and 0 wickets |
| Betting.Classify | src/components/MatchDetails.jsx:96-100 | the state the guards at 116-199 test in order; it is live exactly when the match is live, not abandoned, without a result message and with a current innings, and not started only when the match is not live and has no current innings |
| Betting.MilestoneRuns | src/components/MatchDetails.jsx:277-290 | the run target is 150, 250 or 300: 250 exactly for format 1, 300 exactly for format 2, 150 for everything else |
| Betting.LiveContext | src/components/MatchDetails.jsx:199-211 | the facts the live rules read: a previous innings exactly from two innings on, and 0 runs and 0 wickets when no batting team is found |
| Betting.SnapshotContext | src/components/MatchDetails.jsx:199-211 | the context of a live snapshot, read from its current innings |
| Betting.LiveQuestions | src/components/MatchDetails.jsx:213-430 | every live rule in order; the list is never empty and opens with `match_winner` |
| Betting.PlayerRules | src/components/MatchDetails.jsx:224-274 | batsman runs and boundary, bowler wicket, partnership, in that order; the ids are pinned by `PlayerIdsExact` |
| Betting.ProgressRules | src/components/MatchDetails.jsx:276-315 | the score milestone, then the next over; the ids are pinned by `ProgressIdsExact` |
| Betting.InningsRules | src/components/MatchDetails.jsx:319-370 | declaration, follow-on, target chase; the ids are pinned by `InningsIdsExact` |
| Betting.SessionRules | src/components/MatchDetails.jsx:372-413 | session survival, innings completion, imminent result; the ids are pinned by `SessionIdsExact` |
| Betting.TestRules | src/components/MatchDetails.jsx:318-430 | the innings rules, the session rules, then the century watch; the ids are pinned by `TestIdsExact` |
| Betting.Centuries | src/components/MatchDetails.jsx:415-429 | at most one century question per batsman among the first n still in; ids and odds are pinned by `CenturyIdsExact` and `CenturyOdds` |
| Betting.Generate | src/components/MatchDetails.jsx:48-459 | the generator as a function: the fallback, the fixed list of an early return, the live rules or the general winner question; equal to `GenerateBettingQuestions`, and the subject of the snapshot lemmas below |
| Betting.GenerateBettingQuestions | src/components/MatchDetails.jsx:48-459 | the step-by-step generator returns exactly `Generate` of the snapshot |
| Betting.AskFixedQuestions | src/components/MatchDetails.jsx:116-196 | the early returns yield the fixed list of the state they detect |
| Betting.AskOngoingQuestions | src/components/MatchDetails.jsx:199-444 | past the early returns, the live questions or the general winner question, as `Generate` says |
| Betting.AskLiveQuestions | src/components/MatchDetails.jsx:199-430 | the live branch pushes exactly the live rules' questions for the snapshot's context, and at least one |
| Betting.ReadBattingTeam | src/components/MatchDetails.jsx:201-210 | the batting team is found by the innings' team name, t1 first, and its runs and wickets are the parsed score fields |
| Betting.AskPlayerQuestions | src/components/MatchDetails.jsx:224-274 | the batsman, bowler and partnership questions are the player rules of the context |
| Betting.AskProgressQuestions | src/components/MatchDetails.jsx:276-315 | the milestone and next-over questions are the progress rules of the context |
| Betting.AskTestQuestions | src/components/MatchDetails.jsx:318-430 | in a Test, the Test rules of the context in order |
| Betting.AskInningsQuestions | src/components/MatchDetails.jsx:319-370 | declaration, follow-on and target chase, as the innings rules say |
| Betting.AskSessionQuestions | src/components/MatchDetails.jsx:372-413 | session survival, innings completion and imminent result, as the session rules say |
| Betting.AskCenturyQuestions | src/components/MatchDetails.jsx:415-429 | the `forEach` over the batsmen still in pushes one century question per batsman with 50 or more, in index order |
| BettingLemmas.IdOfIdText | src/components/MatchDetails.jsx:52-451 | every id string can be read back to its id |
| BettingLemmas.IdTextInjective | src/components/MatchDetails.jsx:595 | two ids have the same text exactly when they are the same id, so distinct ids are distinct React keys |
| BettingLemmas.PlayerIdsExact | src/components/MatchDetails.jsx:224-274 | the player rules yield the batsman-runs, batsman-boundary, bowler-wicket and partnership ids, each exactly when its gate holds |
| BettingLemmas.ProgressIdsExact | src/components/MatchDetails.jsx:276-315 | the progress rules yield the milestone and next-over ids, each exactly when its gate holds |
| BettingLemmas.InningsIdsExact | src/components/MatchDetails.jsx:323-370 | declaration, follow-on and target-reach ids, each exactly when its gate holds |
| BettingLemmas.SessionIdsExact | src/components/MatchDetails.jsx:372-413 | session-survival, innings-completion and imminent-result ids, each exactly when its gate holds |
| BettingLemmas.CenturyIdsExact | src/components/MatchDetails.jsx:415-429 | the century questions carry `century_i` for each batsman still in at index i with 50 or more, in order |
| BettingLemmas.TestIdsExact | src/components/MatchDetails.jsx:318-430 | in a Test, the Test rules' ids are the innings ids, then the session ids, then the century ids |
| BettingLemmas.LiveIdsExact | src/components/MatchDetails.jsx:213-430 | the live ids are `match_winner`, then the id of each rule whose gate holds, in rule order, and the Test rules only in a Test |
| BettingLemmas.LiveIdsAscending | src/components/MatchDetails.jsx:213-430 | the live ids strictly follow rule order (match winner, batsman runs, boundary, bowler wicket, partnership, milestone, next over, then the Test rules and the centuries by index), so none repeats |
| BettingLemmas.CenturyIdsChain | src/components/MatchDetails.jsx:415-429 | century ids come in increasing index order, after every other live id |
| BettingLemmas.MatchWinnerFirst | src/components/MatchDetails.jsx:213-222 | the live list opens with `match_winner`: 1.85/2.10 in a T20 and 1.72/2.25 otherwise, with a draw at 4.50 in a Test and 15.00 otherwise, and team names defaulting to "Team 1"/"Team 2" |
| BettingLemmas.FallbackExactly | src/components/MatchDetails.jsx:50-59 | the output is exactly the fallback question if and only if the snapshot is missing or has no teams |
| BettingLemmas.NeverEmpty | src/components/MatchDetails.jsx:48-459 | every snapshot gets at least one question |
| BettingLemmas.DelayedExclusive | src/components/MatchDetails.jsx:117-140 | not live with status 5: exactly rain-delay resume (4 options) then rain-delay score (3 options), whatever the scorecard or result |
| BettingLemmas.AbandonedExclusive | src/components/MatchDetails.jsx:143-156 | status 3, live or not: exactly `abandoned_result` |
| BettingLemmas.CompletedExclusive | src/components/MatchDetails.jsx:159-171 | neither of those, with a truthy result message: exactly `completed_margin` |
| BettingLemmas.NotStartedExclusive | src/components/MatchDetails.jsx:174-196 | none of those, not live, with a missing or empty scorecard: exactly `pre_match_winner`, `pre_match_first_boundary` |
| BettingLemmas.GeneralWinnerExactly | src/components/MatchDetails.jsx:434-444 | none of the early returns, and either live without a current innings (a missing or empty scorecard included) or not live with a scorecard: exactly `general_winner` |
| BettingLemmas.LiveIdsOfMember | src/components/MatchDetails.jsx:213-430 | an id is a live id exactly when it is `match_winner` or comes from a rule group that runs |
| BettingLemmas.GroupMembers | src/components/MatchDetails.jsx:224-413 | an id is in a rule group exactly when it is one of that group's ids and its rule fires |
| BettingLemmas.LiveIdsOfFlags | src/components/MatchDetails.jsx:213-413 | apart from centuries, each live id is present exactly when its own rule fires |
| BettingLemmas.CenturyIdsMember | src/components/MatchDetails.jsx:415-429 | `century_i` is among the century ids exactly when i indexes a batsman still in with 50 or more |
| BettingLemmas.BatsmanGates | src/components/MatchDetails.jsx:224-274 | batsman runs and boundary appear exactly when the first batsman still in has a name; partnership exactly when the first two do |
| BettingLemmas.BowlerGates | src/components/MatchDetails.jsx:248-315 | bowler wicket and next over appear exactly when the current bowler has a name; the milestone exactly when runs are below the format's target |
| BettingLemmas.InningsGates | src/components/MatchDetails.jsx:318-370 | declaration, follow-on and target reach appear exactly in a Test whose own gate holds |
| BettingLemmas.SessionGates | src/components/MatchDetails.jsx:372-413 | session survival, innings completion and imminent result appear exactly in a Test whose own gate holds |
| BettingLemmas.CenturyGate | src/components/MatchDetails.jsx:415-429 | `century_i` appears exactly in a Test where batsman i of those still in has at least 50 runs; absent runs never qualify |
| BettingLemmas.CenturyOdds | src/components/MatchDetails.jsx:415-429 | each century question is about a batsman still in with 50 or more, at its own index, with odds 1.80/2.00 from 80 runs on and 3.00/1.35 below |
| BettingLemmas.GenerateLive | src/components/MatchDetails.jsx:199-430 | a live snapshot gets exactly the live rules' questions for its context |
| BettingLemmas.SnapshotContextReads | src/components/MatchDetails.jsx:199-211 | a live snapshot's context reads the snapshot's format, the batsmen still in of its current innings and the runs parsed from the batting side's score |
| BettingLemmas.CenturyQuestionOfLive | src/components/MatchDetails.jsx:415-429 | a century question among the live questions comes from the century watch, which runs only in a Test with a batsman still in |
| BettingLemmas.LiveSnapshotIds | src/components/MatchDetails.jsx:199-430 | a live snapshot's ids are the live ids of the context derived from it |
| BettingLemmas.FixedDistinct | src/components/MatchDetails.jsx:116-196 | the ids of each fixed list are pairwise distinct |
| BettingLemmas.GenerateDistinct | src/components/MatchDetails.jsx:48-459 | no snapshot gets two questions with the same id, and a live snapshot's ids follow rule order |
| BettingLemmas.LiveOpening | src/components/MatchDetails.jsx:199-222 | a live snapshot opens with `match_winner` |
| BettingLemmas.OtherOpening | src/components/MatchDetails.jsx:116-196 | a snapshot that is not live does not open with `match_winner` |
| BettingLemmas.MatchWinnerFirstIffLive | src/components/MatchDetails.jsx:199-222 | a snapshot with teams opens with `match_winner` if and only if it is live |
| BettingLemmas.MilestoneInSnapshot | src/components/MatchDetails.jsx:277-302 | in a live snapshot `score_milestone` is asked exactly while the parsed runs of the batting side's score are below the format's target |
| BettingLemmas.FollowOnNotLive | src/components/MatchDetails.jsx:336-353 | a live snapshot never gets `follow_on` |
| BettingLemmas.FollowOnNeverAsked | src/components/MatchDetails.jsx:336-353 | no snapshot gets `follow_on`: its gate needs one innings and a previous one, and a previous innings exists only from two innings on |
| BettingLemmas.CenturyInSnapshot | src/components/MatchDetails.jsx:415-429 | in a live snapshot `century_i` is asked exactly in a Test where batsman i of those still in has at least 50 runs |
| BettingLemmas.CenturyOddsInSnapshot | src/components/MatchDetails.jsx:415-429 | every century question a live snapshot gets is in a Test and names the batsman still in at its index, who has at least 50, with odds 1.80/2.00 from 80 runs on and 3.00/1.35 below |
| Banner.FormatName | src/components/MatchDetails.jsx:39-46 | the label is "Unknown" exactly for a format other than 1, 2 and 3 |
| Banner.FormatNameRoundTrip | src/components/MatchDetails.jsx:39-46 | the label of 1, 2 or 3 leads back to that format, and "Unknown" to none |
| Banner.FormatNameInjective | src/components/MatchDetails.jsx:39-46 | two known formats have the same label only when they are the same format |
| Banner.MilestoneOfNamedFormat | src/components/MatchDetails.jsx:277-290 | the milestone is 250 for the format labelled ODI, 300 for Test, and 150 for T20 and "Unknown" |
| Banner.HeadingAsWritten | src/components/MatchDetails.jsx:580-591 | the page's heading: it says pre-match only in the generator's pre-match state, and where it differs from the generator's state it says live while the state is pre-match |
| Banner.HeadingAsWrittenAgrees | src/components/MatchDetails.jsx:580-591 | the page's heading names the generator's state exactly unless the match is not live, nothing earlier applies, and the scorecard is present but empty |
| Banner.EmptyScorecardMislabelled | src/components/MatchDetails.jsx:584 | on such a snapshot the heading says live betting while the questions are the two pre-match ones |
| Banner.EmptyScorecardExample | src/components/MatchDetails.jsx:584 | a concrete snapshot (not live, status 1, no result, `scorecard: []`) gets the live heading but the generator's pre-match state |
| Banner.CorrectedHeading | src/components/MatchDetails.jsx:580-591 | the heading with the generator's scorecard test is the heading of the generator's state |
| Banner.TeamlessHeadingOverFallback | src/components/MatchDetails.jsx:580-591 | a snapshot without teams, not live, with status 5 gets the delayed heading, as written and corrected, above the single `fallback` card |
| Banner.CorrectedHeadingMatches | src/components/MatchDetails.jsx:580-591 | for a snapshot with teams, the corrected heading is pre-match exactly when the questions are the pre-match ones, and delayed exactly when they are the rain-delay ones |

## Left out

- Fetching the match, the envelope unwrap, React state and effects: network I/O and
  asynchronous UI state (`src/components/MatchDetails.jsx:18-37`).
- Rendering: the JSX, the scorecard tables with their `strikeRate.toFixed(2)` and
  `economyRate.toFixed(2)` (lines 670 and 701), and `scrollToSection`.
  These only display values. The heading's emoji prefixes are not part of `HeadingText`.
- `overs = parseFloat(...)` (line 211) is computed and never read, so it is not modelled.
- The `catch` fallback (lines 448-458) fires only on JavaScript type errors, such as a
  `null` batting entry. Typed datatypes rule those out, so `ErrorFallbackQuestion` is a
  constant that nothing reaches.
- Field types are those the code expects. A `runs` that is a string, or a score that is
  a number, is not modelled. An absent `isLive` or `isOut` is written `false`, and an
  absent `status` or `format` is any value the code does not single out.
- Chained optional reads are flattened into `Option` fields: `result?.message` becomes
  `Match.resultMessage`, and `teams?.team1?.name` becomes
  `ScorecardResult.team1Name`.
- Question texts are the datatype `Prompt`; `Render` spells them out. Nothing about the
  texts is proved beyond what their constructors carry.
- `src/utils/dateUtils.js`, `src/components/LiveMatchesList.jsx` and `src/App.jsx` are not
  part of this model. They hold clock and time-zone formatting, fetching and rendering,
  and routing. The list page's own `getFormatName` duplicates the one modelled here.
- The source's own comment at `src/components/MatchDetails.jsx:335` announces
  follow-on questions after the first innings. The guard at line 336 contradicts it:
  it needs exactly one innings and a previous innings at once. The model follows the
  guard, which never asks the question (`FollowOnNeverAsked`). Which guard was meant
  cannot be told from the code, so this is not listed as a finding.
- Banner.CorrectedHeadingMatches: holds only for a snapshot with teams. The page shows
  a heading for every snapshot it has (lines 481, 580-591), including one without
  teams, where the generator returns only `fallback` (lines 50-59). There the heading,
  as written or corrected, still follows the state, e.g. delayed or pre-match, above
  the fallback card (`TeamlessHeadingOverFallback`). Which heading was meant for that
  card cannot be told from the code.
- `null` and a missing field are both `None`, so the model treats them as equal where
  the source's `===` does not (`null === undefined` is false). This affects the team key
  of an innings (line 81), the batting team and its score (lines 202-203) and the
  follow-on totals (lines 337-339), in `Cricket.TeamKey`, `Cricket.BattingTeam`,
  `Cricket.BattingScore` and `Betting.FollowOnTotal`. One snapshot shows it: a live Test
  whose team 1 has no `name`, whose innings has `teamName: null`, and a batting list. The
  source then finds no batting team and does not ask `session_survival`; the model makes
  team 1 the batting team and asks it.
- The same conflation reaches the rendered texts: a template literal prints a `null` name
  as `null` and an absent one as `undefined`, while `Show(None)` always gives
  `undefined`. A rain-delayed snapshot whose team 1 is `{name: null}` gets the option
  "null leads" in the source (line 133) and "undefined leads" in the model. The texts at
  lines 120, 133-134, 148-149, 216, 407 and 437 differ in this way. Snapshots whose names
  are strings, or absent (not `null`) wherever they are missing, are modelled exactly,
  comparisons and texts alike.
- JavaScript numbers are IEEE doubles, and the model's `int` is exact. Rounding above
  2^53 is not modelled: in the results of `parseInt` (lines 209-210), in the runs and
  `targetRuns` read from the JSON, and in `targetRuns - runs` (lines 357 and 399).
  Cricket scores stay far below that bound.

## Findings

| source | as written | input that shows it | evidently intended | confidence | as-written member | corrected member |
|---|---|---|---|---|---|---|
| src/components/MatchDetails.jsx:584 | the heading counts a match as not started only when `matchData.scorecard` is missing | not live, status 1, no result, `scorecard: []`: the heading says "Live Betting Questions" while the cards are `pre_match_winner`, `pre_match_first_boundary` | the same test the generator uses at line 100: no first scorecard entry | medium, not executed | Banner.EmptyScorecardMislabelled | Banner.CorrectedHeadingMatches |
