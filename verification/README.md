# Data Detective — session state machine and scoring, in Dafny

This project models the game logic of the `DataDetectiveGame` React component.
It is a single-player "detective" case. The player walks through seven screens:
intro, instructions, briefing, investigation, analysis, solution and results.
Along the way the player collects evidence sources and picks a hypothesis. Then
the player writes a free-text report. Each of those actions earns points and
badges. The player's rank is Apprentice Detective until a report brings the
total score to 200.

The model has these parts:

- `wrappers.dfy` (`Wrappers`): the `Option` datatype used for lookups.
- `text.dfy` (`Text`): ASCII lower-casing and a substring search. The search is
  proved equal to "occurs at some index".
- `clock.dfy` (`Clock`): `formatTime`, which renders seconds as `M:SS`. It
  comes with a reader `ParseTime`, and the two are proved inverse in both
  directions.
- `fixtures.dfy` (`Fixtures`): the four evidence sources and the four
  hypotheses. Each hypothesis weight is its rounded whole percentage (70, 100,
  20, 10). The file also has the `find` lookup of an option by identifier.
- `game.dfy` (`Game`): the `Session` record, with one field per `useState`. Each
  event handler is an atomic `Session -> Session` function: collect, select,
  submit analysis, edit findings, submit solution, timer tick and "Try New
  Case". The file also holds the render switch on the phase name, whose unknown
  names fall back to the briefing.
- `machine.dfy` (`Machine`): the commands a screen offers (`Offered`: the
  collect buttons at lines 363-364, "Proceed to Analysis" at 423, the radio
  values at 466-469, "Submit Analysis" at 478-480, and the always-enabled
  report box, "Submit Final Report" and "Try New Case"), the
  dispatch `Step`, the phase graph `Edge`, and runs of commands. `Valid` is the
  invariant of every reachable session, stated phase by phase. It is proved to
  be preserved by every command. The consequences of `Valid` are proved
  separately: the score bounds, evidence without duplicates, and badges that
  never repeat.

Two points of the code are worth stating plainly:

- "Try New Case" keeps the rank: the handler at
  `src/DataDetectiveGame.js:619-627` never calls `setPlayerLevel`, so a
  promoted player stays a Junior Analyst in the next case.
- The first evidence source, `user_analytics`, has the category `data`
  (`src/DataDetectiveGame.js:38`).

Badges are kept in a list that is never de-duplicated.
`Machine.BadgesDistinct` proves that no reachable session lists a badge twice,
because the badges always appear in earning order.

## Model

| member | source | states |
|---|---|---|
| Text.Lower | src/DataDetectiveGame.js:224-225 | the lower-cased report has the same length, maps each character through ASCII lower-casing and contains no ASCII capital letter |
| Text.ContainsIff | src/DataDetectiveGame.js:224-225 | `includes` (the substring search) holds exactly when the word occurs at some index of the text |
| Clock.NatToString | src/DataDetectiveGame.js:244 | `toString` of a non-negative number is a canonical decimal numeral (no leading zero) whose value is the number; it is a single digit exactly below 10 |
| Clock.CanonicalRendering | src/DataDetectiveGame.js:244 | every canonical numeral is the rendering of its own value (the inverse direction of `toString`) |
| Clock.PadStart2 | src/DataDetectiveGame.js:244 | `padStart(2, '0')` returns the input when it has two or more characters, and otherwise exactly two characters: zeros followed by the input |
| Clock.SecondsField | src/DataDetectiveGame.js:243-244 | the seconds within a minute are rendered as exactly two digits denoting that number |
| Clock.FormatTimeReadsBack | src/DataDetectiveGame.js:241-245 | the display is minutes, a colon, then two digits below 60, and minutes × 60 + seconds equals the input |
| Clock.ParseFormat | src/DataDetectiveGame.js:241-245 | reading a display back gives the seconds it was rendered from |
| Clock.FormatParse | src/DataDetectiveGame.js:241-245 | every well-formed `M:SS` display is exactly the rendering of the seconds it denotes |
| Clock.FiveMinutes | src/DataDetectiveGame.js:21 | the initial 300-second countdown displays as "5:00" |
| Fixtures.FindOption | src/DataDetectiveGame.js:141 | `find` returns the first option carrying the requested identifier, and returns nothing exactly when no option carries it |
| Fixtures.FindUnique | src/DataDetectiveGame.js:141 | with distinct identifiers, `find` returns the unique option that carries the identifier |
| Fixtures.OptionTable | src/DataDetectiveGame.js:90-115 | the four hypotheses are worth 70, 100, 20 and 10 points, any other selection (the empty one included) matches nothing, and only `technical_bugs` reaches the 0.8 "Sharp Analyst" weight |
| Game.ScreenFor | src/DataDetectiveGame.js:641-659 | the render switch shows the phase whose name is stored, and the briefing for any name that is not a phase |
| Game.CollectEvidence | src/DataDetectiveGame.js:125-138 | a new source is appended and earns exactly 25 points; an already collected one changes nothing; at most one badge is added: "First Evidence" exactly when one source was held before, "Thorough Investigator" exactly when three were; identifiers stay distinct |
| Game.SubmitAnalysis | src/DataDetectiveGame.js:140-152 | a selection matching no option changes nothing; a matching one adds its percentage, appends "Sharp Analyst" iff the weight is at least 0.8, moves to the solution screen and changes nothing else |
| Game.BonusDecodes | src/DataDetectiveGame.js:220-225 | the report bonus is one of 0, 20, 25, 30, 45, 50, 55, 75; its value tells exactly which of the length, technical-word and recommendation-word rules fired; a bonus of 50 or more needs more than 100 characters |
| Game.SubmitSolution | src/DataDetectiveGame.js:219-239 | adds the bonus, appends "Solution Master" iff the bonus is at least 50, makes the player a Junior Analyst iff the new score is at least 200 or the player already was one, and always moves to the results screen |
| Game.Tick | src/DataDetectiveGame.js:118-123 | the countdown changes only on the investigation screen with time left, then by exactly one second, and stays within [0, 300] |
| Game.NewCase | src/DataDetectiveGame.js:619-627 | "Try New Case" yields the mount state on the briefing screen, with the player's rank kept |
| Machine.Step | src/DataDetectiveGame.js:118-659 | a command the screen does not offer changes nothing; phases move only along the graph edges (lines 181, 208, 293, 425, 150, 238, 620); investigation leads to analysis only with at least three sources; the rank is never demoted; the score never drops except on "Try New Case", which sets it to 0; an offered "Enter Game", "Start Game", "Start Investigation" or "Proceed to Analysis" sets exactly the phase, an offered radio choice sets exactly the selection, an offered report edit sets exactly the report text, and the countdown event runs the tick |
| Machine.CollectButtonGate | src/DataDetectiveGame.js:362-364 | a fixture source's collect button on the investigation screen acts as the handler does, and once the source is collected (button disabled) it changes nothing |
| Machine.RadioValues | src/DataDetectiveGame.js:463-469 | on a reachable analysis screen the selection is empty or an option identifier, and a radio choice is taken exactly when its value is an option identifier |
| Machine.SubmitButtonGate | src/DataDetectiveGame.js:478-480 | "Submit Analysis" is enabled exactly when something is selected; then it always reaches the solution screen, and otherwise it changes nothing |
| Machine.SolutionControls | src/DataDetectiveGame.js:523-543 | the report box and "Submit Final Report" act as their handlers on the solution screen and change nothing on any other |
| Machine.NewCaseControl | src/DataDetectiveGame.js:618-631 | "Try New Case" resets the case on the results screen and changes nothing on any other |
| Machine.ProceedGate | src/DataDetectiveGame.js:423-425 | "Proceed to Analysis" moves on exactly when at least three sources are collected, and otherwise changes nothing |
| Machine.InitialValid | src/DataDetectiveGame.js:16-23 | the state at mount satisfies the session invariant |
| Machine.CollectKeepsBoard | src/DataDetectiveGame.js:125-127 | appending an uncollected fixture source keeps the board free of duplicate identifiers |
| Machine.CollectValid | src/DataDetectiveGame.js:125-138 | a collection keeps the score at 25 per source and the badges equal to those the collections earned |
| Machine.SubmitAnalysisValid | src/DataDetectiveGame.js:140-152 | submitting the analysis keeps the invariant: the score and badges then account for the chosen hypothesis |
| Machine.SubmitSolutionValid | src/DataDetectiveGame.js:219-239 | submitting the report keeps the invariant, including "a score of 200 or more means Junior Analyst" on the results screen |
| Machine.StepValid | src/DataDetectiveGame.js:118-627 | every command, offered or not, keeps the session invariant |
| Machine.RunValid | src/DataDetectiveGame.js:16-23 | every session reached from a valid one by any sequence of commands is valid |
| Machine.BoardWithin | src/DataDetectiveGame.js:34-88 | a board of distinct sources drawn from the fixture list is no longer than that list |
| Machine.Bounds | src/DataDetectiveGame.js:118-239 | in every reachable session: at most four sources and none twice, a countdown within [0, 300], 25 points per source during investigation and analysis, and a score between 0 and 275 |
| Machine.EarnedInOrder | src/DataDetectiveGame.js:130-230 | collection, analysis and report badges, listed in that order, are in earning order |
| Machine.BadgesDistinct | src/DataDetectiveGame.js:130-230 | no reachable session lists a badge twice |
| Machine.FirstRoundStep | src/DataDetectiveGame.js:233-236 | before any "Try New Case", each command keeps this rule: the rank is Junior Analyst exactly on the results screen with a score of at least 200 |
| Machine.FirstRoundRank | src/DataDetectiveGame.js:17 | the same rule holds along any run of commands without "Try New Case" |
| Machine.CollectInOrder | src/DataDetectiveGame.js:363-364 | collecting the fixture sources in display order extends the board one source at a time, 25 points each |
| Machine.Opening | src/DataDetectiveGame.js:180-293 | from the mount state, "Enter Game" (line 180), "Start Game" (208) and "Start Investigation" (293) reach a fresh investigation with the full countdown |
| Machine.CollectAllExample | src/DataDetectiveGame.js:125-138 | from the mount state, the three opening buttons and the four collections fill the board, score 100 and earn exactly "First Evidence" and "Thorough Investigator" |
| Machine.FullMarksPromote | src/DataDetectiveGame.js:227-236 | with four sources and `technical_bugs` chosen, any report brings the score to 200 plus its bonus and promotes the player |

## Left out

- Rendering is not modelled: JSX, framer-motion animation, icons and styling. The model keeps only which control each screen shows and whether it is enabled (`Machine.Offered`).
- `setTimeout`/`clearTimeout` scheduling and the effect's cleanup are not modelled. The countdown is an abstract `TimerTick` event, because wall-clock time and the React effect lifecycle are outside the model.
- React state batching and stale closures are not modelled. Each handler sets each field at most once, so each one is modelled as a single atomic update.
- Floating point is not modelled. Hypothesis weights are their rounded whole percentages, the values `Math.round(correctness * 100)` produces. The percentage deltas and the accuracy bar on screen are display only.
- `toLowerCase` is ASCII-only here, and `.length` counts Dafny characters rather than UTF-16 code units. Full Unicode case mapping and UTF-16 lengths are outside the model.
- Clock.NatToString and Clock.FormatTime: JavaScript numbers are doubles, so `toString` writes exponent notation from 10^21 on (`"1e+21"`) and integers are exact only up to 2^53; the model renders every natural number in plain decimal. This never matters here, because the countdown stays between 0 and 300 (`Machine.Bounds`).
- Clock.FormatTime takes a non-negative number of seconds. The countdown never goes below 0 (`Machine.Bounds`), so JavaScript's truncating `%` and `Math.floor` on negative input are not modelled.
- Narrative payloads are not modelled: case text, metric arrays and review strings. The sources' names and categories are kept for display; only the sources' identifiers and the hypotheses' identifiers and weights affect the logic.
- The "Share Results" button has no handler and is not modelled.
- Game.SelectAnalysis, Game.UpdateFindings and Game.GoTo have no contract of their own. Each is a plain field update; `Machine.Step`'s contract states the update each one makes when its control is offered.
