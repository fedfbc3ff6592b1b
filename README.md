# Launch-brief survey engine, modelled in Dafny

The page `src/app/page.tsx` runs a five-step questionnaire: who you are
(`role`, single choice), the experience's energy (`vibe`, single choice), up to
three focus areas (`focus`, multi choice with a limit of 3), how fast signal
should appear (`timeline`, a 1–12 scale defaulting to 6) and a vision sentence
(`vision`, free text). It keeps one answer per step, moves between the steps and
a summary view, and derives a summary from the answers: a momentum score, a
tempo label, a checkpoint some weeks out, four insights and a two- or
three-entry roadmap.

This project models that core and proves what it promises.

- `optional.dfy` — `Optional.Option`, the model of `T | undefined`.
- `strings.dfy` — `Strings`: JavaScript's `trim` (with ECMAScript's exact
  whitespace and line-terminator set) and `toLowerCase` (ASCII letters).
- `jsmath.dfy` — `JsMath`: `Math.round` of a ratio of integers, computed
  exactly, plus `Math.max`, `Math.min` and the clamp.
- `catalog.dfy` — `Catalog`: the step types, the five steps of `surveySteps`, the
  copy tables `roleCopy`, `vibeCopy` and `focusCopy`, and `findStepById`. The
  TypeScript `Option` type is `Choice` here, and its `label` field is `caption`,
  because `label` is a Dafny keyword. The display text of the steps (each
  `title` and `description`) and of the options (each `label` and
  `description`) is not stored inside the step values. It sits in two
  tables keyed by step id and option value, `StepTexts` and `ChoiceTexts`.
  No logic of the page reads these fields, and keeping long string literals
  out of `SurveySteps` keeps every proof about the catalog small.
- `answers.dfy` — `AnswerStore`: the answer record, `createInitialAnswers` (a
  loop over the steps), `isStepComplete`, the `stepsCompleted` reduce, and the
  four answer handlers.
- `session.dfy` — `Session`: the position (`currentIndex`, `showSummary`) and
  its transitions as functions, progress, the chip and "next" gating, and the
  class `SurveySession` with fields `answers`, `currentIndex` and `showSummary`,
  whose methods are the page's handlers.
- `derivation.dfy` — `Derivation`: the fallbacks, `timelineLabel`, the
  checkpoint offset, `momentumScore`, `focusMeta`, `summaryInsights` and
  `roadmap`.

The momentum score is computed over integers. With `d = max - 1 = 11`, the raw
score times `d` is `60d - 28(t - 1) + d(20 + 8f + vibeWeight)`, where the vibe
weight is 18 for "experimental", 16 for "premium" and 12 otherwise. `Math.round(x)` is
`floor(x + 1/2)`. `MomentumMatchesRealFormula` proves that this integer form
equals the source's formula over the reals, rounded and clamped. The raw
score is never exactly halfway between two integers, so rounding the
floating-point value gives the same result.

React state updates (`setAnswers(prev => …)`, `setCurrentIndex`) are ordinary
assignments to the class's fields, one after the other. The memoised values
are functions of the answers.

Three behaviours of the code worth noting:

- Progress is 100 on the last step as well as in the summary:
  `round(100 · 5 / 5) = 100`. `ProgressValues` states this.
- A `focus` toggle evicts the oldest selection when the limit is reached.
  The page, however, disables the buttons of unselected options once the
  limit is reached (page.tsx:772-776). So eviction only happens when the
  handler is called directly. The handler is modelled as written.
- The chip rule lets the timeline step be reached from the start, because
  its default value already makes it complete (`StartGating`). A user can
  therefore skip the unanswered `role`, `vibe` and `focus` steps.

## Model

| member | source | states |
|---|---|---|
| Catalog.SurveyStepsShape | src/app/page.tsx:55-179 | the catalog has five steps in the order role, vibe, focus, timeline, vision; their kinds are single, single, multi with limit 3, scale 1–12 with default 6, and text; ids are unique; every step is well shaped (a multi limit of at least 1, `min < max` and a positive step, distinct option values) |
| Catalog.FindStepById | src/app/page.tsx:289-296 | the result is a step of the list with the given id and type tag; it is absent exactly when no step matches; when a step matches, the result is that step or one earlier in the list |
| Catalog.TimelineStep | src/app/page.tsx:298 | the module-level lookup finds the catalog's timeline step, the fourth step |
| Catalog.RoleCopyCovers | src/app/page.tsx:181-198 | every option value of the role step has an entry in `roleCopy` |
| Catalog.VibeCopyCovers | src/app/page.tsx:200-228 | every option value of the vibe step has an entry in `vibeCopy` |
| Catalog.FocusCopyCovers | src/app/page.tsx:230-264 | every option value of the focus step has an entry in `focusCopy` |
| Catalog.StepTextsCover | src/app/page.tsx:55-179 | every step of the catalog has a title and a description |
| Strings.TrimStart | src/app/page.tsx:317-318 | the leading-whitespace-free suffix of the input; everything removed is whitespace |
| Strings.TrimEnd | src/app/page.tsx:317-318 | the trailing-whitespace-free prefix of the input; everything removed is whitespace |
| Strings.Trim | src/app/page.tsx:317-318 | `trim()` is no longer than its input, and a non-empty result has no whitespace at either end |
| Strings.TrimIsSlice | src/app/page.tsx:317-318 | `trim()` is a contiguous slice of the input; neither end of it is whitespace, and everything outside it is whitespace |
| Strings.TrimEmptyIffBlank | src/app/page.tsx:336 | `s.trim().length > 0` exactly when `s` has a character that is not whitespace |
| Strings.TrimIdempotent | src/app/page.tsx:318 | trimming twice equals trimming once |
| Strings.ToLower | src/app/page.tsx:472 | same length as the input, with every character lower-cased |
| JsMath.RoundDiv | src/app/page.tsx:275 | `Math.round(n / d)`: the integer `r` with `r - 1/2 <= n/d < r + 1/2` |
| JsMath.RoundDivUnique | src/app/page.tsx:345 | that integer is unique |
| JsMath.RoundDivMonotone | src/app/page.tsx:345 | rounding is monotone in the numerator |
| JsMath.RoundDivWhole | src/app/page.tsx:449 | a whole ratio rounds to itself |
| JsMath.Clamp | src/app/page.tsx:462 | `Math.max(lo, Math.min(hi, x))` lies in `[lo, hi]`; it is `x` inside the range and the nearer bound outside it |
| AnswerStore.InitialAnswer | src/app/page.tsx:268-280 | multi starts as `[]`; scale starts at its default value, or else at the rounded midpoint of `[min, max]`; single and text start as `""` |
| AnswerStore.AnswersForEntries | src/app/page.tsx:266-283 | with unique ids, the record built step by step has exactly one key per step id, and each value is that step's initial answer |
| AnswerStore.CreateInitialAnswers | src/app/page.tsx:266-283 | the `forEach` loop yields the initial record: exactly the step ids as keys, each holding its step's initial answer |
| AnswerStore.InitialAnswersValues | src/app/page.tsx:266-283 | the initial record: role, vibe and vision are `""`, focus is `[]`, timeline is 6, and there are no other keys |
| AnswerStore.IsStepCompleteIffAnswered | src/app/page.tsx:347-356 | `isStepComplete` holds exactly when the step is answered: a non-empty list for multi, a number for scale, a string with a non-whitespace character for single and text |
| AnswerStore.StepsCompleted | src/app/page.tsx:327-341 | the reduce counts at most one per step |
| AnswerStore.ReduceTerm | src/app/page.tsx:329-339 | each step adds 0 or 1 to the reduce |
| AnswerStore.ReduceTermAgrees | src/app/page.tsx:327-356 | the reduce's term for a step is 1 exactly when `isStepComplete` holds for it |
| AnswerStore.StepsCompletedCounts | src/app/page.tsx:327-341 | `stepsCompleted` equals the number of steps `isStepComplete` accepts, and is at most the number of steps |
| AnswerStore.InitialStepStatus | src/app/page.tsx:266-283 | in the initial record a step is complete exactly when it is a scale step |
| AnswerStore.InitialCompleteness | src/app/page.tsx:266-283 | in the initial record only step 3, the timeline, is complete, so `stepsCompleted` is 1 |
| AnswerStore.SingleSelected | src/app/page.tsx:358-363 | the entry becomes `""` exactly when it already held the chosen value (or the value is empty), and the chosen value otherwise; no other key changes |
| AnswerStore.SingleSelectTwice | src/app/page.tsx:358-363 | selecting the same value twice restores an entry that was empty or that value; from any other starting value it ends at `""` |
| AnswerStore.SelectionOf | src/app/page.tsx:367-368 | the stored list when the entry is an array, otherwise `[]` |
| AnswerStore.Without | src/app/page.tsx:374 | the filter keeps exactly the elements other than the value; it is no longer than the input; it is the input itself when the value is absent |
| AnswerStore.WithoutConcat | src/app/page.tsx:374 | filtering a concatenation filters each part, so the kept elements stay in their original order |
| AnswerStore.WithoutRemovesAt | src/app/page.tsx:374 | in a duplicate-free list, filtering out the value at position `k` leaves the elements before `k` followed by those after it |
| AnswerStore.Shift | src/app/page.tsx:379 | `shift()` drops the first (oldest) entry of a non-empty list and leaves an empty one empty |
| AnswerStore.WithoutOfDistinct | src/app/page.tsx:374 | filtering a duplicate-free list keeps it duplicate-free, and removes exactly one element if the value was present |
| AnswerStore.MultiToggled | src/app/page.tsx:365-388 | the value is in the result exactly when it was not selected before; a newly added value is the last entry; the result grows by at most one |
| AnswerStore.MultiToggle | src/app/page.tsx:365-388 | the handler's copy-then-shift-then-push stores the toggled selection under the step's key and changes nothing else |
| AnswerStore.MultiToggleKeepsCap | src/app/page.tsx:378-382 | under a positive limit, a duplicate-free selection within the limit stays duplicate-free and within the limit; a new value is appended, after evicting the oldest entry when the list is full; a selected value is removed and the others keep their order |
| AnswerStore.MultiToggleEvictsOldest | src/app/page.tsx:378-382 | with limit 3, toggling `d` into `[a, b, c]` gives `[b, c, d]` |
| AnswerStore.MultiToggleUnbounded | src/app/page.tsx:378 | with no limit, or a limit of 0, a new value is simply appended |
| AnswerStore.MultiToggleUndo | src/app/page.tsx:369-386 | adding a value without eviction and then toggling it again restores the selection |
| AnswerStore.ScaleChanged | src/app/page.tsx:390-395 | the number is stored as given under its key; no other key changes |
| AnswerStore.TextChanged | src/app/page.tsx:397-402 | the raw, untrimmed text is stored under its key; no other key changes |
| AnswerStore.TextChangedCompletes | src/app/page.tsx:397-402 | after typing, the text step is complete exactly when the text is not blank |
| AnswerStore.ScaleChangedCompletes | src/app/page.tsx:390-395 | after moving the slider, the scale step is complete |
| AnswerStore.SingleSelectedCompletes | src/app/page.tsx:358-363 | after choosing a non-blank value, the single-choice step is complete exactly when the choice did not clear it |
| Session.NextState | src/app/page.tsx:409-419 | `goNext` never moves back, never leaves the summary, and from any in-range step outside the summary always changes the position |
| Session.PreviousState | src/app/page.tsx:421-431 | `goPrevious` always leaves the summary, never moves forward from a step, and changes the position whenever it is in the summary or above step 0 |
| Session.NavigationStaysInRange | src/app/page.tsx:404-431 | `goNext` and `goPrevious` keep the index in `[0, N-1]` and show the summary only from the last step |
| Session.NextThenPrevious | src/app/page.tsx:409-431 | next then previous returns to the starting step; from the summary or any later step, previous then next returns as well |
| Session.ForwardFrom | src/app/page.tsx:409-419 | from step `i`, `k` presses of next advance exactly `k` steps while that stays within the catalog, and end in the summary on the last step after that |
| Session.ForwardFromStart | src/app/page.tsx:409-419 | from the first step, `k` presses of next reach step `k` while `k < N`, and the summary on the last step from then on |
| Session.ActiveIndexOf | src/app/page.tsx:305 | `activeIndex` never exceeds `N-1`, and equals the index when the index is within range |
| Session.ProgressOf | src/app/page.tsx:343-345 | progress is 100 in the summary, and positive on every step |
| Session.ProgressValues | src/app/page.tsx:343-345 | outside the summary, step `i` shows `20(i+1)` percent; progress lies in `(0, 100]`; it is 100 exactly in the summary or on the last step |
| Session.ProgressMonotone | src/app/page.tsx:343-345 | outside the summary, progress never drops as the index grows |
| Session.AccessibleFrom | src/app/page.tsx:565 | a chip is enabled exactly when its step is at or before the active one, or answered |
| Session.CanAdvanceFrom | src/app/page.tsx:433 | "next" is enabled exactly in the summary, or when the active step is answered |
| Session.StartGating | src/app/page.tsx:565 | at start, "next" is disabled because the role is unanswered; apart from the first step, only the timeline can be jumped to |
| Session.SurveySession.constructor | src/app/page.tsx:301-303 | a new session holds the initial answers, with index 0 and the summary off |
| Session.SurveySession.ActiveIndex | src/app/page.tsx:305 | in a valid session, the active index is the current index, which is within range |
| Session.SurveySession.ActiveStep | src/app/page.tsx:306 | the active step is the catalog's step at the current index |
| Session.SurveySession.CanAdvance | src/app/page.tsx:433 | `canAdvance` holds exactly in the summary, or when the active step is answered |
| Session.SurveySession.StepAccessible | src/app/page.tsx:565 | a chip is enabled exactly when its index is at most the current index, or its step is answered |
| Session.SurveySession.Progress | src/app/page.tsx:343-345 | progress lies in `(0, 100]`, and is 100 exactly in the summary or on the last step |
| Session.SurveySession.CompletedCount | src/app/page.tsx:327-341 | the number of completed steps is at most the number of steps |
| Session.SurveySession.HandleSingleSelect | src/app/page.tsx:358-363 | the answers become the single-select update of the old answers; the position is unchanged |
| Session.SurveySession.HandleMultiToggle | src/app/page.tsx:365-388 | the step's key holds the toggled selection and nothing else changes; the position is unchanged |
| Session.SurveySession.HandleScaleChange | src/app/page.tsx:390-395 | the number is stored under the key; the position is unchanged |
| Session.SurveySession.HandleTextChange | src/app/page.tsx:397-402 | the raw text is stored under the key; the position is unchanged |
| Session.SurveySession.GoToStep | src/app/page.tsx:404-407 | the summary is off and the index is the target; the answers are unchanged |
| Session.SurveySession.SelectChip | src/app/page.tsx:565-578 | a chip click jumps to its step when that step is accessible (at or before the active step, or complete), and does nothing otherwise |
| Session.SurveySession.GoNext | src/app/page.tsx:409-419 | the new position is `goNext` of the old one: increment below `N-1`, enter the summary at `N-1`, no-op in the summary |
| Session.SurveySession.GoPrevious | src/app/page.tsx:421-431 | the new position is `goPrevious` of the old one: from the summary, step `N-1` with the summary off; otherwise a decrement when above 0 |
| Session.SurveySession.EditResponses | src/app/page.tsx:688 | the summary is off and the index and answers are unchanged |
| Session.SurveySession.ResetForm | src/app/page.tsx:521-525 | the session is back to exactly the state of a new session |
| Derivation.FocusSelections | src/app/page.tsx:308-311 | the stored focus list when the entry is an array, otherwise `[]` |
| Derivation.TimelineDefault | src/app/page.tsx:314 | `timelineStep?.defaultValue ?? 6` resolves to 6 |
| Derivation.TimelineMax | src/app/page.tsx:458 | `timelineStep?.max ?? 12` resolves to 12 |
| Derivation.TimelineValue | src/app/page.tsx:313-314 | the stored number, or 6 when the entry is not a number |
| Derivation.VisionStatement | src/app/page.tsx:316-319 | the trimmed text when the text is not blank, otherwise the fixed fallback; never empty, and a trimmed text has no whitespace at either end |
| Derivation.RoleSelection | src/app/page.tsx:321-322 | the stored non-empty role string, otherwise "founder" |
| Derivation.VibeSelection | src/app/page.tsx:324-325 | the stored non-empty vibe string, otherwise "premium" |
| Derivation.VibeMeta | src/app/page.tsx:435 | the copy entry of the vibe selection, present exactly when the table has that key |
| Derivation.RoleMeta | src/app/page.tsx:436 | the copy entry of the role selection, present exactly when the table has that key |
| Derivation.FocusMeta | src/app/page.tsx:438 | at most one entry per selection, each a focus copy entry |
| Derivation.FocusMetaConcat | src/app/page.tsx:438 | the entries of a concatenation are the entries of each part, in order |
| Derivation.FocusMetaOne | src/app/page.tsx:438 | a single selection yields its copy entry when it is a known focus value, and nothing otherwise |
| Derivation.FocusMetaDropsUnknown | src/app/page.tsx:438 | `["bogus", "ai-layer", "story"]` yields the entries of `ai-layer` and `story`, in that order |
| Derivation.FocusMetaOfKnown | src/app/page.tsx:438 | with all selections known, nothing is dropped and the entries line up with the selections |
| Derivation.FocusMetaEmptyIff | src/app/page.tsx:438 | the list is empty exactly when no selection is a known focus value |
| Derivation.TimelineLabel | src/app/page.tsx:440-445 | the label is one of the four tempo bands |
| Derivation.TimelineLabelBands | src/app/page.tsx:440-445 | on the slider range 1–12 the bands are three values wide, in order |
| Derivation.TimelineLabelMonotone | src/app/page.tsx:440-445 | a longer timeline never gets a faster band |
| Derivation.CheckpointWeeks | src/app/page.tsx:449 | at least one week, and `t` weeks for `t >= 1` |
| Derivation.CheckpointOffsetDays | src/app/page.tsx:447-450 | the offset is a positive whole number of weeks: `7t` days for `t >= 1`, else 7 |
| Derivation.VibeWeight | src/app/page.tsx:460 | the vibe weight is 18 for "experimental", 16 for "premium" and 12 for any other vibe |
| Derivation.MomentumFrom | src/app/page.tsx:457-463 | the score always lies in `[48, 97]` |
| Derivation.MomentumScore | src/app/page.tsx:457-463 | the score of any answers lies in `[48, 97]` |
| Derivation.MomentumMatchesRealFormula | src/app/page.tsx:458-462 | the integer computation equals `Math.max(48, Math.min(97, Math.round(raw)))` of the source's real-valued formula |
| Derivation.MomentumScoreFormula | src/app/page.tsx:457-463 | the score of any answers is the clamped, rounded real formula applied to the stored timeline, the vibe selection and the raw number of focus selections, known or not |
| Derivation.MomentumMonotone | src/app/page.tsx:458-459 | a longer timeline never raises the score; more focus selections never lower it |
| Derivation.MomentumOnSliderRange | src/app/page.tsx:458-462 | for timelines 1–12 and at most 3 selections the score is at least 64, so the lower clamp never applies |
| Derivation.InsightsFrom | src/app/page.tsx:470-492 | exactly four insights, tagged "Focus signal", "Tempo", "Experience" and "Next up"; the last is titled "What to unlock next" |
| Derivation.InsightsFollowFocus | src/app/page.tsx:466-489 | insight 1 is titled "Lead with" the lower-cased first entry's label and carries its signal, or the default label and signal fallback when there is no entry; insight 4 is titled "What to unlock next" and carries the second entry's payoff, or the fallback when there are fewer than two |
| Derivation.InsightsTempoAndVibe | src/app/page.tsx:476-485 | insight 2 is the tempo band with the checkpoint sentence; insight 3 is the vibe's label and headline, tagged "Experience" |
| Derivation.SummaryInsights | src/app/page.tsx:465-493 | four insights exist exactly when the vibe has a copy entry |
| Derivation.InsightsFollowSelections | src/app/page.tsx:466-489 | with all selections known, insight 1 carries the first selection's signal; insight 4 carries the second selection's payoff, or the fallback when there are fewer than two |
| Derivation.Roadmap | src/app/page.tsx:495-519 | built with `push`: three entries, the first "Week 1" for the first focus, when a known focus exists; otherwise two; then "Week 2" with the vibe headline; the last is always "By <date>"; absent exactly when the vibe has no copy entry |
| Derivation.ValidChoicesResolveCopy | src/app/page.tsx:435-436 | when every single-choice answer is empty or one of its step's options, the role and vibe lookups succeed, so the insights exist |
| Derivation.InitialChoicesValid | src/app/page.tsx:266-283 | the initial answers satisfy that condition |
| Derivation.SingleSelectedKeepsChoicesValid | src/app/page.tsx:720 | choosing one of a step's own options preserves it |
| Derivation.OtherUpdateKeepsChoicesValid | src/app/page.tsx:781-856 | writing the key of a focus, timeline or vision step preserves it |
| Derivation.FastExperimentalScenario | src/app/page.tsx:457-463 | founder, experimental, two focus areas, timeline 3: score 97 (raw about 108.9, clamped), tempo "Lightning launch", 21 days to the checkpoint |
| Derivation.FastExperimentalVision | src/app/page.tsx:316-319 | a vision text with nothing to trim is the statement as given |
| Derivation.SlowMinimalScenario | src/app/page.tsx:457-463 | minimal vibe, no focus, timeline 12: score 64, tempo "Long-term evolution" |
| Derivation.SlowPremiumScenario | src/app/page.tsx:457-463 | premium vibe, no focus, timeline 12: score 68, inside the clamp range |

## Left out

- Rendering, class-name strings and layout (page.tsx:527-973), the `classNames` helper and the `accent`/`gradient` copy fields: they are presentation only. The two state changes in the summary view are modelled: the "Edit responses" button (`EditResponses`) and the "Reset survey" button, page.tsx:657-663 (`ResetForm`).
- `src/app/layout.tsx` is not part of this model. It holds only page metadata, font loading and the HTML wrapper.
- React hooks as a mechanism (`useState`, `useMemo`, update batching). State updates are sequential assignments, and memoised values are functions.
- The wall clock and locale formatting of `checkpointDate` (`new Date()`, `toLocaleDateString`). The model computes the offset in days (`CheckpointOffsetDays`). The formatted date is an opaque string parameter of `SummaryInsights` and `Roadmap`.
- Floating point. Answers hold integers, as the range input enforces with `step: 1`. Non-integer, `NaN` and infinite numbers stored by a direct handler call are not modelled.
- Strings.ToLower: it maps only the ASCII letters `A`–`Z`. This is exact for every string the page lower-cases (the focus labels and the "Product foundations" fallback). Other Unicode case mappings are not modelled.
- Copy-table lookups of keys inherited from `Object.prototype` (such as `"constructor"`): they return a non-`undefined` value in JavaScript. Here they read as absent.
- A lookup of a vibe with no copy entry makes the source throw when it reads `vibeMeta.label` or `vibeMeta.headline`. The model returns `None` from `SummaryInsights` and `Roadmap` instead. The throw itself is not modelled.
- The "Share the plan" button: it has no handler.
- Session.SurveySession.GoToStep: it requires an index within the catalog, because the page calls it only from the chips of existing steps. It does not model a jump to an out-of-range index.
- Session.SurveySession.SelectChip: the chips are only rendered outside the summary. The model does not require this.
