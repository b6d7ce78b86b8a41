# Expected-utility decision core, modelled in Dafny

The repository is a small decision-theory application with three front ends. All three set out to
do the same three things:

1. collect a set of alternatives (the "SOA"), each with a name, its outcomes' utilities and,
   when the decision maker knows them, the outcomes' probabilities;
2. score each alternative by its expected utility. This is the dot product of probabilities
   and utilities. When probabilities are unknown, it is the mean utility (the Laplace criterion:
   every outcome has weight 1/n);
3. pick the best alternative, which is the first one with the largest score.

As written, not every front end achieves this: the prompt-driven script never gets past its first
outcome prompt, and with that fixed it would still score every alternative without probabilities
as 0; the wizard cannot record an outcome at all (see "Findings").

The front ends are:

- `app/new-app/script.js`: a paginated wizard in the browser. It keeps its state in six
  page-level variables that the "next" and "back" buttons update.
- `app/decision_theory_app/static/script.js`: a browser script that asks through `prompt` and
  `confirm`. It checks that the probabilities sum to about 1 and re-asks an alternative when the
  user declines the warning. It also builds the node and edge lists of a decision tree.
- `app/decision_theory_app/decision_theory.py`: the Python back end that parses a flat list of
  console answers.

The project has six modules:

| file | module | what it holds |
|---|---|---|
| `base.dfy` | `Base` | `Option` and `Result` |
| `text.dfy` | `Text` | JavaScript `trim`, the blank-name test, the `"s"` answer test |
| `expectation.dfy` | `Expectation` | the shared arithmetic: `Sum`, `Dot`, Python's zip-truncating `ZipDot`, `Mean`, the Laplace weights, the first-maximum fold |
| `new_app.dfy` | `NewApp` | the wizard |
| `prompt_front.dfy` | `PromptFront` | the prompt-driven script |
| `decision_theory.dfy` | `DecisionTheory` | the Python back end |

Modelling conventions:

- **Numbers.** Numbers are Dafny `real`s. The host's parsing is taken as already done: every
  typed answer carries its text together with what `parseInt`/`parseFloat` (or Python's
  `int()`/`float()`) make of it, and `None` stands for NaN or a raised `ValueError`.
- **Errors.** An error the source throws becomes `Err` of a `Result`.
- **JavaScript.** Undefined and NaN are `None` where the source compares with them.
- **Wizard state.** The wizard's variables are fields of class `NewApp.Wizard`. Its methods are
  proved against the transition functions `Answer`, `RecordUtility` and `Back` on the value
  `WizardState`, and the invariant `Inv` describes every state the buttons can reach.
- **Dialogs.** In the prompt-driven script, the dialogs become two finite lists: the answers
  typed into `prompt` and the answers to `confirm`. Running out of either ends the session
  with `OutOfAnswers`.
- **Loops.** The loops of `getDecisionMakerInput`, `getFloatInput`, `process_input`,
  `calculate_expected_utility` and `visualizeDecisionTree` are methods with loop invariants.
  The loops of `getDecisionMakerInput`, `getFloatInput` and `process_input` are proved equal to
  recursive specification functions, which carry the lemmas. The loop of
  `calculate_expected_utility` (in both the Python back end and the wizard) is proved to set each
  alternative to a per-alternative function of it. `visualizeDecisionTree`'s postconditions
  state the node and edge lists directly.

Where the code and its evident intent differ, the model keeps both. The as-written
behaviour is `NewApp.AnswerAsWritten`, `NewApp.BackAsWritten`, `PromptFront.Fill` on the empty
array and `PromptFront.GetFloatInput`. The corrected behaviour is `NewApp.Answer`,
`NewApp.Back`, the Laplace weights in `PromptFront.NextAlternative` and `PromptFront.NextFloat`.
The rest of the model uses these corrected definitions.

One more defect is kept as written. In the wizard's step 4 with probabilities, the one typed
value becomes both the outcome's probability and its utility (`NewApp.OutcomeEntry`). The
intended step, with the utility read from a second answer, is `NewApp.OutcomePair`. The
`NewApp.Wizard` class still runs the one-answer step, because the page never asks for a
utility when probabilities are known, so there is no page state to model a second answer in.
Each case is listed under "Findings" below.

## Model

Source paths are relative to the repository root.

| member | source | states |
|---|---|---|
| `Text.TrimSlice` | app/decision_theory_app/static/script.js:29 | `trim()` keeps exactly the run between the first and the last non-white-space character, and everything it cuts is JavaScript white space |
| `Text.BlankIffAllSpace` | app/new-app/script.js:116 | a name is refused as blank exactly when every one of its characters is white space |
| `Text.TrimIdempotent` | app/decision_theory_app/static/script.js:29-33 | trimming a trimmed name changes nothing more |
| `Expectation.FirstMax` | app/new-app/script.js:216-218 | the reduce with strict `>` ends on an index holding a largest score, with no earlier index holding one as large (the first maximum wins) |
| `Expectation.FirstMaxCharacterized` | app/decision_theory_app/decision_theory.py:57-58 | an index is that first maximum exactly when it is the one the fold returns; Python's `max` with a key returns the same |
| `Expectation.LaplaceWeightsSumToOne` | app/decision_theory_app/decision_theory.py:40-41 | the Laplace weights `[1/n] * n` form a distribution: they sum to 1 |
| `Expectation.LaplaceDotIsMean` | app/new-app/script.js:206-211 | scoring with the Laplace weights equals the new front end's mean utility, so the two rules agree |
| `Expectation.ZipDotOfEqualLengths` | app/decision_theory_app/decision_theory.py:53 | when probabilities and utilities are equally many, the zip-based sum is the full dot product |
| `Expectation.ZipDotTruncates` | app/decision_theory_app/decision_theory.py:53 | `zip` drops the unmatched tail of the longer list: the score is the dot product of the two equal-length prefixes |
| `Expectation.RiskScenario` | app/decision_theory_app/static/script.js:76-87 | two alternatives under risk score 15 and 21 and the second is chosen |
| `Expectation.LaplaceScenario` | app/decision_theory_app/decision_theory.py:40-41 | four outcomes get weight 0.25 each; utilities 1 to 4 then score 2.5 |
| `NewApp.Wizard.constructor` | app/new-app/script.js:1-6 | the page variables start as declared and the start state satisfies the invariant |
| `NewApp.InitialIsValid` | app/new-app/script.js:1-6 | the declared initial values form a reachable state |
| `NewApp.Wizard.ProcessAnswer` | app/new-app/script.js:98-155 | one press of "next" updates the fields exactly as `Answer` says and keeps the invariant |
| `NewApp.Wizard.ProcessOutcome` | app/new-app/script.js:132-151 | the outcome block: a probability outside [0, 1] or NaN is refused; on the last outcome a sum further than 0.001 from 1 is pushed and popped again; otherwise the value goes to `processUtility` |
| `NewApp.Wizard.ProcessUtility` | app/new-app/script.js:157-184 | the fields are updated exactly as `RecordUtility` says: NaN is refused; the utility is pushed and the counter advances; after the last outcome the next alternative is asked for or every expected utility is set |
| `NewApp.Wizard.GoBack` | app/new-app/script.js:49-64 | one press of "back" updates the fields exactly as `Back` says and keeps the invariant |
| `NewApp.AnswerKeepsInvariant` | app/new-app/script.js:98-155 | every answer, at every step, leads to a reachable state |
| `NewApp.RecordUtilityKeepsInvariant` | app/new-app/script.js:157-184 | recording a utility in a ready state leads to a reachable state |
| `NewApp.BackKeepsInvariant` | app/new-app/script.js:49-64 | every press of "back" leads to a reachable state |
| `NewApp.ReadyAlternativesScorable` | app/new-app/script.js:174-182 | when the last utility of the last alternative arrives, every alternative is complete and can be scored |
| `NewApp.CountEntryOutcome` | app/new-app/script.js:102-110 | step 0 stores `parseInt` of the answer even when it is refused, and advances exactly on a positive count |
| `NewApp.ProbabilityFlagOutcome` | app/new-app/script.js:111-114 | step 1 always advances; probabilities are known exactly when the answer lower-cases to "s" |
| `NewApp.NameEntryOutcome` | app/new-app/script.js:115-122 | step 2: a blank name changes nothing; any other name appends exactly one alternative with no outcomes and moves to step 3 |
| `NewApp.OutcomeCountOutcome` | app/new-app/script.js:123-131 | step 3: a count that is NaN or not positive changes nothing; a good count is stored in the current alternative only and moves to step 4 |
| `NewApp.ProbabilityOutOfRangeRefused` | app/new-app/script.js:133-137 | step 4 with probabilities: a value that is NaN or outside [0, 1] leaves the state unchanged |
| `NewApp.ProbabilitySumRollback` | app/new-app/script.js:141-147 | step 4, last outcome: a sum further than 0.001 from 1 leaves the state exactly as before the answer |
| `NewApp.UtilityNaNRefused` | app/new-app/script.js:158-162 | step 4 without probabilities: a NaN utility leaves the state unchanged |
| `NewApp.UtilityAccepted` | app/new-app/script.js:157-184 | an accepted value appends one utility (and, with probabilities, one probability) to the current alternative and nothing to earlier ones; the counter advances; after the last outcome the wizard returns to step 2 while alternatives remain, and otherwise finishes with every expected utility set |
| `NewApp.StepFourFeedsOneValueToBoth` | app/new-app/script.js:132-158 | as written, with probabilities, the one typed value is stored both as the outcome's probability and as its utility |
| `NewApp.OutcomeReady` | app/new-app/script.js:132-150 | proof step: once the probability is accepted, `processUtility` is called in a state it can handle, on the alternative with that probability pushed |
| `NewApp.SeparateUtilityAnswer` | app/new-app/script.js:132-158 | with the utility read from its own answer, an accepted probability and a numeric utility each go to their own list of the current alternative, whose name and count stay |
| `NewApp.RiskFirstOutcome` | app/new-app/script.js:132-168 | proof step: probability 0.4 with any numeric utility records the first of two outcomes |
| `NewApp.RiskSecondOutcome` | app/new-app/script.js:132-187 | proof step: probability 0.6 with any numeric utility records the second outcome and finishes with score 0.4 * u1 + 0.6 * u2 |
| `NewApp.OneValueScenario` | app/new-app/script.js:123-187 | as written, "1", "s", "A", "2", "0.4", "0.6" store probabilities and utilities [0.4, 0.6] and score 0.52 |
| `NewApp.TwoAnswerScenario` | app/new-app/script.js:132-187 | with the utility read from its own answer, "0.4", "10", "0.6", "20" score 16 |
| `NewApp.BackAtStart` | app/new-app/script.js:50 | "back" at step 0 does nothing |
| `NewApp.BackToProbabilityFlag` | app/new-app/script.js:52-53 | landing on step 1 resets the probability flag and keeps everything else |
| `NewApp.BackToName` | app/new-app/script.js:54-56 | landing on step 2 drops the alternative just named; in the corrected `Back` its index stays the index of the next name |
| `NewApp.BackToOutcomeCount` | app/new-app/script.js:57-61 | landing on step 3 clears the current alternative's probabilities and utilities, restarts the outcome counter and leaves other alternatives alone |
| `NewApp.CalculateExpectedUtility` | app/new-app/script.js:204-214 | each alternative keeps its fields and gets the dot product as its score, or the mean utility without probabilities |
| `NewApp.ScoredKeepsEntries` | app/new-app/script.js:204-214 | scoring keeps order, names and outcome arrays, and scoring again changes nothing |
| `NewApp.FindBestAlternative` | app/new-app/script.js:216-218 | an empty list throws (None); otherwise the result is an alternative of the list at the first maximum of the scores |
| `NewApp.FinishedAlternativesAreSound` | app/new-app/script.js:186-187 | when the results appear, every alternative has all its outcomes; any entered probabilities lie in [0, 1], one per utility, summing to within 0.001 of 1; and each score is the dot product or the mean utility |
| `NewApp.AsWrittenStepFourIgnoresAnswers` | app/new-app/script.js:101-152 | as written, an answer at step 4 changes nothing |
| `NewApp.MissingStepFourScenario` | app/new-app/script.js:101-152 | as written, "1", "n", "A", "2" reach step 4, and the wizard stays there whatever is typed |
| `NewApp.StepFourScenario` | app/new-app/script.js:132-184 | with the step-4 branch the same session finishes after utilities 3 and 5 with score 4 |
| `NewApp.NamedFirstAlternative` | app/new-app/script.js:102-122 | "1", "s", "A" wait at step 3 for the count of "A" |
| `NewApp.BackDecrementScenario` | app/new-app/script.js:54-56 | as written, back from step 3 sets the alternative index to -1; after a new name the count then writes to a missing entry and the wizard never leaves step 3 |
| `NewApp.BackScenario` | app/new-app/script.js:49-64 | with the corrected `Back`, the same presses store the count in the new alternative and reach step 4 |
| `NewApp.SumErrorScenario` | app/new-app/script.js:141-147 | probabilities 0.5 then 0.3 on two outcomes: the second is refused and the state is as before |
| `PromptFront.GetFloatInput` | app/decision_theory_app/static/script.js:7-16 | as written it parses its own message: it returns that parse when it is a number in range and otherwise never returns |
| `PromptFront.OutcomePromptsNeverReturn` | app/decision_theory_app/static/script.js:45-48 | the outcome messages start with a letter that cannot start a number, so as written those calls never return |
| `PromptFront.NextFloat` | app/decision_theory_app/static/script.js:7-16 | asking until a number in range arrives: the result is a parsed answer in range, read after `pos`, or the end of the answers |
| `PromptFront.NextFloatFirstAcceptable` | app/decision_theory_app/static/script.js:7-16 | asking again until a number in range arrives takes the first acceptable answer: every answer skipped was refused, and the answers run out only when none left is acceptable |
| `PromptFront.ReadFloat` | app/decision_theory_app/static/script.js:7-16 | the asking loop of `getFloatInput`, read from the user's answers, returns what `NextFloat` describes |
| `PromptFront.NextName` | app/decision_theory_app/static/script.js:29-33 | the name loop ends after the answer it read, or with the end of the answers |
| `PromptFront.NextNameFirstNonBlank` | app/decision_theory_app/static/script.js:29-33 | the name loop takes the first answer that is not blank: every answer it skipped trims to "", and it runs out of answers only when every answer left is blank |
| `PromptFront.NameTrimmed` | app/decision_theory_app/static/script.js:29-33 | the name returned is the trimmed text of the last answer read, is not empty, and is trimmed already |
| `PromptFront.ReadName` | app/decision_theory_app/static/script.js:29-33 | the name loop as a method computes `NextName` |
| `PromptFront.NextOutcomes` | app/decision_theory_app/static/script.js:43-50 | the outcome loop never moves the cursor back and stays within the answers |
| `PromptFront.ReadOutcomes` | app/decision_theory_app/static/script.js:43-50 | the outcome loop as a method computes `OutcomesAt` |
| `PromptFront.NextAlternative` | app/decision_theory_app/static/script.js:29-64 | reading one alternative consumes at least one answer and stays within the answers |
| `PromptFront.ReadAlternative` | app/decision_theory_app/static/script.js:29-64 | name, positive count (otherwise the thrown error), outcomes and, without probabilities, the Laplace weights: equal to `NextAlternative` |
| `PromptFront.AskAlternative` | app/decision_theory_app/static/script.js:28-71 | one pass of the loop body: an unreadable alternative ends the session with its error; a sum outside [0.99, 1.01] asks the confirm; yes or an in-band sum append and count the alternative; no appends nothing and asks for the same alternative again |
| `PromptFront.GetDecisionMakerInput` | app/decision_theory_app/static/script.js:18-74 | the whole session as a method computes `DecisionMakerInput` |
| `PromptFront.SessionShape` | app/decision_theory_app/static/script.js:18-74 | a finished session has exactly the asked number of alternatives and the flag from the first confirm; names are trimmed and not empty; each alternative has at least one outcome; with probabilities there is one per utility, each in [0, 1]; without, there are the Laplace weights, summing to 1 |
| `PromptFront.SessionHeader` | app/decision_theory_app/static/script.js:21-24 | no answers, or a count that is NaN or not positive, end the session before any alternative |
| `PromptFront.NextOutcomesShape` | app/decision_theory_app/static/script.js:43-50 | the loop reads exactly the asked number of utilities and, with probabilities, as many probabilities in [0, 1] |
| `PromptFront.NextAlternativeShape` | app/decision_theory_app/static/script.js:29-64 | every alternative read is well formed (see `SessionShape`) |
| `PromptFront.NextAlternativesShape` | app/decision_theory_app/static/script.js:28-71 | the loop only appends: it keeps what it had, adds exactly the remaining number, and adds only well-formed alternatives |
| `PromptFront.PrefixOfLonger` | app/decision_theory_app/static/script.js:66-70 | proof step: appending to the list keeps its earlier entries |
| `PromptFront.ResumeRound` | app/decision_theory_app/static/script.js:28 | proof step: with alternatives still to come, the loop runs one more pass |
| `PromptFront.UnreadableAlternativeEnds` | app/decision_theory_app/static/script.js:35-38 | an alternative that cannot be read ends the session with its error |
| `PromptFront.InBandAlternativeAppended` | app/decision_theory_app/static/script.js:52-70 | without probabilities, or with a sum in [0.99, 1.01], the alternative is appended and counts |
| `PromptFront.WarningWithoutAnswerEnds` | app/decision_theory_app/static/script.js:54-56 | a warning with no confirm answer left ends the session |
| `PromptFront.ConfirmedAlternativeAppended` | app/decision_theory_app/static/script.js:54-56 | confirming the warning appends the alternative as entered |
| `PromptFront.DeclinedAlternativeReentered` | app/decision_theory_app/static/script.js:56-58 | declining the warning appends nothing and leaves the same number still to come (the `i--` retry) |
| `PromptFront.TwoOutcomes` | app/decision_theory_app/static/script.js:43-50 | four numeric answers are read as two probability and utility pairs |
| `PromptFront.TwoOutcomeAlternative` | app/decision_theory_app/static/script.js:35-50 | a name, the count 2 and four numbers make one alternative with two outcomes |
| `PromptFront.NameRead` | app/decision_theory_app/static/script.js:29-33 | a name after at most one blank answer is read trimmed |
| `PromptFront.DeclinedFirstEntry` | app/decision_theory_app/static/script.js:52-58 | an entry with 0.5 and 0.3 draws the warning; declining discards it and asks for the same alternative again |
| `PromptFront.DeclinedSecondEntry` | app/decision_theory_app/static/script.js:29-70 | a blank name is asked again; "B" with 0.5 and 0.5 raises no warning and is appended |
| `PromptFront.DeclinedWarningScenario` | app/decision_theory_app/static/script.js:18-74 | in the whole declined-warning session only the second entry is kept |
| `PromptFront.ConfirmedWarningScenario` | app/decision_theory_app/static/script.js:18-74 | confirming the warning keeps the entry whose sum is 0.8 |
| `PromptFront.LaplaceFillAsWritten` | app/decision_theory_app/static/script.js:40-63 | as written, `fill` on the empty array leaves it empty and the alternative scores 0 |
| `PromptFront.LaplaceFillScenario` | app/decision_theory_app/static/script.js:62-63 | utilities 3 and 5 without probabilities: score 0 as written, the mean 4 with the Laplace weights |
| `PromptFront.AlternativeScore` | app/decision_theory_app/static/script.js:78 | the score is defined exactly when every probability has a utility (otherwise NaN, None); it then equals the Python back end's zip-based sum, so extra utilities are ignored as `zip` ignores them |
| `PromptFront.CalculateExpectedUtility` | app/decision_theory_app/static/script.js:76-81 | the map keeps every alternative's name and arrays in order; its score is defined exactly when every probability has a utility, and is then the zip-based sum of the Python back end |
| `PromptFront.CalculateExpectedUtilityIdempotent` | app/decision_theory_app/static/script.js:76-81 | scoring keeps names and arrays; scoring twice equals scoring once |
| `PromptFront.SessionScores` | app/decision_theory_app/static/script.js:62-81 | on a finished session every alternative gets a score: the dot product, or the mean utility through the Laplace weights |
| `PromptFront.BestIndex` | app/decision_theory_app/static/script.js:83-87 | the reduce ends on an index of the list |
| `PromptFront.FindBestAlternative` | app/decision_theory_app/static/script.js:83-87 | an empty list throws (None); otherwise the result is an alternative of the list |
| `PromptFront.BestIndexIsFirstMax` | app/decision_theory_app/static/script.js:83-87 | once every alternative has a score, the reduce ends on the first maximum |
| `PromptFront.SessionBest` | app/decision_theory_app/static/script.js:18-87 | on a finished, scored session the best alternative is the first with the largest expected utility |
| `PromptFront.AltIdsIncrease` | app/decision_theory_app/static/script.js:133-144 | each alternative's subtree starts after the previous one's outcome nodes |
| `PromptFront.OutcomeNodes` | app/decision_theory_app/static/script.js:140-144 | the inner loop appends one node per probability, with the outcome's label, each linked from the alternative's node; ids continue the counter; earlier nodes and edges are kept |
| `PromptFront.PlacedKept` | app/decision_theory_app/static/script.js:134-145 | appending nodes and edges keeps every alternative and outcome already placed |
| `PromptFront.PlacedNew` | app/decision_theory_app/static/script.js:135-144 | one pass of the outer loop places the alternative's node and all its outcome nodes |
| `PromptFront.DecisionTree` | app/decision_theory_app/static/script.js:127-145 | the root "Decisão" is node 0; node k has id k and edge k leads to node k + 1; each alternative's node sits at its counter id, linked from the root, followed by its outcome nodes, linked from it |
| `DecisionTheory.ProcessInput` | app/decision_theory_app/decision_theory.py:8-49 | the two nested loops over the cursor compute `ParseInput`, errors included |
| `DecisionTheory.ParsedShape` | app/decision_theory_app/decision_theory.py:18-49 | a successful parse has one alternative per iteration of the range and the flag from the answer "s"; probabilities are one per utility, or the Laplace weights summing to 1; no score is set yet |
| `DecisionTheory.ParseInputHeader` | app/decision_theory_app/decision_theory.py:19-23 | an empty or one-token input raises IndexError; a first token that is no integer raises ValueError; a count of at most 0 returns no alternatives |
| `DecisionTheory.ReadOutcomesShape` | app/decision_theory_app/decision_theory.py:33-38 | the inner loop reads exactly the asked number of utilities and, with probabilities, as many probabilities; the cursor ends exactly 2 tokens per outcome further on with probabilities, 1 without |
| `DecisionTheory.ReadAlternativeShape` | app/decision_theory_app/decision_theory.py:24-47 | one iteration keeps the token text as the name and yields a well-shaped alternative with `max(0, num_outcomes)` utilities; the cursor ends exactly past the name, the count and 2 (or 1) tokens per outcome |
| `DecisionTheory.ReadAlternativesShape` | app/decision_theory_app/decision_theory.py:23-47 | the outer loop only appends, adds exactly the remaining number, adds only well-shaped alternatives, and never moves the cursor back |
| `DecisionTheory.OutcomeWithProbability` | app/decision_theory_app/decision_theory.py:34-38 | proof step: with probabilities, an iteration consumes a probability token and then a utility token |
| `DecisionTheory.OutcomeWithoutProbability` | app/decision_theory_app/decision_theory.py:37-38 | proof step: without probabilities, an iteration consumes a utility token alone |
| `DecisionTheory.ReadPairTokens` | app/decision_theory_app/decision_theory.py:33-38 | typed probability and utility pairs are read back as typed |
| `DecisionTheory.ReadUtilityTokens` | app/decision_theory_app/decision_theory.py:33-38 | typed utilities are read back as typed |
| `DecisionTheory.ReadOutcomeTokens` | app/decision_theory_app/decision_theory.py:33-38 | the typed outcomes are read back as typed, and the cursor moves exactly past them |
| `DecisionTheory.ReadAlternativeTokens` | app/decision_theory_app/decision_theory.py:24-47 | a typed alternative is read back with its name, utilities and probabilities (the Laplace weights without), and the cursor moves past it |
| `DecisionTheory.ReadAlternativesStep` | app/decision_theory_app/decision_theory.py:23-47 | proof step: an iteration of the outer loop appends the alternative it read |
| `DecisionTheory.TypedAlternativeStep` | app/decision_theory_app/decision_theory.py:23-47 | proof step: an iteration over a typed alternative appends it as parsed and moves past its tokens |
| `DecisionTheory.ReadAlternativesTokens` | app/decision_theory_app/decision_theory.py:23-47 | a typed list of alternatives is read back in order as parsed |
| `DecisionTheory.ProcessInputReadsTranscript` | app/decision_theory_app/decision_theory.py:8-49 | round trip: `process_input` on the console answers typed for a decision problem returns that problem (with the Laplace weights when probabilities are unknown) and the flag |
| `DecisionTheory.CalculateExpectedUtility` | app/decision_theory_app/decision_theory.py:51-55 | the loop sets every alternative's "expected_utility" to its zip-based sum and changes nothing else |
| `DecisionTheory.ParsedExpectedUtility` | app/decision_theory_app/decision_theory.py:40-55 | on parsed alternatives the score is the dot product or the mean utility (0 without outcomes), other keys stay, and scoring again changes nothing |
| `DecisionTheory.FindBestAlternative` | app/decision_theory_app/decision_theory.py:57-58 | `max` raises ValueError exactly on an empty list and KeyError exactly when a score is missing; otherwise it returns an alternative at the first maximum |
| `DecisionTheory.PipelineFindsBest` | app/decision_theory_app/decision_theory.py:8-58 | after a parse with at least one alternative and the scoring loop, `max` always succeeds with the first alternative of largest score |
| `DecisionTheory.ZeroOutcomesDivideByZero` | app/decision_theory_app/decision_theory.py:27-41 | for every input, an alternative whose count token is 0 raises ZeroDivisionError without probabilities; with probabilities it is read with empty lists and the cursor moves past its name and count |
| `DecisionTheory.OutcomesOnPrefix` | app/decision_theory_app/decision_theory.py:33-38 | the inner loop reads no token past where it ends: on the input cut short it does the same if it ends by the cut, and otherwise raises IndexError |
| `DecisionTheory.AlternativeOnPrefix` | app/decision_theory_app/decision_theory.py:24-47 | one iteration of the outer loop on the input cut short: the same if it ends by the cut, otherwise IndexError |
| `DecisionTheory.AlternativesOnPrefix` | app/decision_theory_app/decision_theory.py:23-47 | the outer loop on the input cut short: the same if it ends by the cut, otherwise IndexError |
| `DecisionTheory.EarlyEndIsIndexError` | app/decision_theory_app/decision_theory.py:19-37 | a session that ends early raises IndexError: every proper prefix of the answers typed for a decision problem does |
| `DecisionTheory.UncheckedProbabilities` | app/decision_theory_app/decision_theory.py:33-36 | probabilities are taken as typed: 0.5 and 0.3 are accepted although they sum to 0.8 |

## Left out

- Rendering is not modelled: HTML, the decision matrix, the live matrix, the progress bar, the
  charts and the vis-network or matplotlib drawing of the tree. These are display only. The one
  exception is the node and edge lists of `visualizeDecisionTree` in the prompt-driven script.
- `window.prompt`, `confirm`, `alert` and `console.log` are not modelled as host calls. Their
  answers become parameters: the lists of answers and of confirm buttons. The cancel button of
  `prompt` (a `null` whose `trim()` throws) is out of scope.
- `OutOfAnswers` has no counterpart in the source, where a dialog waits for ever. It stands for
  the end of a finite recorded session.
- Loading and saving JSON files, `app.py` (the Flask routes) and `index - Copia.py` are not part
  of this model.
- IEEE floating point is not modelled: rounding, `toFixed`, and NaN arithmetic. Also left out is
  how leniently `parseInt`/`parseFloat`/`int()`/`float()` parse text, so a parse result is given
  with each answer.
- In the new front end, `expectedUtility` is a `real`. The invariant guarantees the arrays its
  formula needs, so the NaN that mismatched lengths would give never arises there.
- The Python module's `Tuple` annotation names a type that is never imported. On Python 3.13 and
  earlier, importing the module as written raises NameError; from Python 3.14 on, annotations are
  evaluated lazily and only reading that annotation raises it. The model treats the functions as
  if the import were there.
- `NewApp.CalculateExpectedUtility`, `PromptFront.CalculateExpectedUtility` and
  `DecisionTheory.CalculateExpectedUtility` do not model aliasing: the source mutates the
  alternative objects in place and returns the same objects. The model returns new values.
- `NewApp.Wizard.ProcessOutcome`: runs the one-answer step 4 as written; the intended two-answer step exists only as the function `NewApp.OutcomePair`, because the page has no prompt and so no state for a separate utility answer.
- `PromptFront.DecisionTree`: requires that no alternative has more probabilities than
  utilities. Otherwise `toFixed` on an undefined utility throws, which the model does not
  represent. Every finished session meets this (`PromptFront.SessionShape`).
- `PromptFront.FindBestAlternative`: its own contract only says the result is an element of the
  list. This is because undefined or NaN scores compare false and leave no maximum to speak of.
  The first-maximum property is stated for scored lists by `PromptFront.BestIndexIsFirstMax`.

## Findings

| source | as written | input that shows it | evidently intended | confidence | as-written member | corrected member |
|---|---|---|---|---|---|---|
| app/new-app/script.js:123-152 | the outcome block follows the `break` of `case 3` and has no `case 4:` label, so it never runs: step 4 ignores every answer | answers "1", "n", "A", "2", then "3": the wizard stays at step 4 for ever | the block runs as the step-4 case, as the step-4 prompt in `askNextQuestion` implies | not executed | `NewApp.MissingStepFourScenario` | `NewApp.StepFourScenario` |
| app/new-app/script.js:54-56 | landing on step 2, `goBack` decrements `currentAlternative` as well as popping the alternative, although step 2 pushes the next one at the same index | "1", "s", "A", back, "B", "2": the index is -1, `soa[-1]` does not exist, and the wizard never leaves step 3 | only the alternative just named is dropped, and the index is kept | not executed | `NewApp.BackDecrementScenario` | `NewApp.BackScenario` |
| app/decision_theory_app/static/script.js:40-63 | `probabilities.fill(1 / numOutcomes, 0, numOutcomes)` fills an empty array, which stays empty, so without probabilities every score is 0 | one alternative without probabilities and utilities 3 and 5 (once getFloatInput reads the answers): score 0 | the Laplace weights 1/n for each of the n outcomes, score 4 | not executed | `PromptFront.LaplaceFillAsWritten` | `PromptFront.SessionScores` |
| app/new-app/script.js:132-158 | with probabilities, the same `userInput` is parsed as the probability and then handed to `processUtility` as the utility; the step-4 prompts only ever ask for a probability | "1", "s", "A", "2", "0.4", "0.6": probabilities and utilities are both [0.4, 0.6], score 0.52 | a second answer per outcome supplies the utility; the progress bar (:91) counts one more step per alternative when probabilities are known | not executed | `NewApp.StepFourFeedsOneValueToBoth` | `NewApp.SeparateUtilityAnswer` |
| app/decision_theory_app/static/script.js:7-16 | `getFloatInput` parses its message instead of asking (`parseFloat(prompt)` with the parameter shadowing `window.prompt`), and loops for ever when that is no number in range | any outcome prompt, for example "Utilidade do outcome 1 …": it never returns | ask with the message and parse the answer until it is a number in range | not executed | `PromptFront.OutcomePromptsNeverReturn` | `PromptFront.ReadFloat` |
