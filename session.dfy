/** The survey session: the answers, the current step index and the summary
    flag, changed by the answer handlers and the navigation controls. */
module Session {
  import opened JsMath
  import opened Catalog
  import opened AnswerStore

  /** The position of the session: `currentIndex` and `showSummary`. */
  datatype NavState = NavState(index: int, summary: bool)

  /** The positions the controls can reach: a step index in range, and the
      summary only ever shown from the last step. */
  predicate InRange(s: NavState)
  {
    0 <= s.index < |SurveySteps| && (s.summary ==> s.index == |SurveySteps| - 1)
  }

  /** `goNext`: moves to the next step, or from the last step into the
      summary; in the summary it does nothing. */
  function NextState(s: NavState): (r: NavState)
    ensures r.index >= s.index && (s.summary ==> r == s)
    ensures InRange(s) && !s.summary ==> r != s
  {
    if !s.summary && s.index < |SurveySteps| - 1 then NavState(s.index + 1, false)
    else if !s.summary && s.index == |SurveySteps| - 1 then NavState(s.index, true)
    else s
  }

  /** `goPrevious`: leaves the summary for the last step, or moves back one
      step; on the first step it does nothing. */
  function PreviousState(s: NavState): (r: NavState)
    ensures !r.summary
    ensures !s.summary ==> r.index <= s.index
    ensures InRange(s) && (s.summary || s.index > 0) ==> r != s
  {
    if s.summary then NavState(|SurveySteps| - 1, false)
    else if s.index > 0 then NavState(s.index - 1, false)
    else s
  }

  /** Both controls keep the position in range. */
  lemma NavigationStaysInRange(s: NavState)
    requires InRange(s)
    ensures InRange(NextState(s)) && InRange(PreviousState(s))
  {
  }

  /** Going forward then back returns to the step one started from, and from
      the summary or any step after the first going back then forward does too. */
  lemma NextThenPrevious(s: NavState)
    requires InRange(s)
    ensures !s.summary ==> PreviousState(NextState(s)) == s
    ensures s.summary || s.index > 0 ==> NextState(PreviousState(s)) == s
  {
  }

  /** `k` presses of "next". */
  function NextTimes(s: NavState, k: nat): NavState
    decreases k
  {
    if k == 0 then s else NextTimes(NextState(s), k - 1)
  }

  /** From the first step, `k` presses of "next" reach step `k` while `k` is
      below the number of steps, and the summary (on the last step) after that. */
  lemma {:induction false} ForwardFromStart(k: nat)
    ensures k < |SurveySteps| ==> NextTimes(NavState(0, false), k) == NavState(k, false)
    ensures k >= |SurveySteps| ==> NextTimes(NavState(0, false), k) == NavState(|SurveySteps| - 1, true)
  {
    ForwardFrom(0, k);
  }

  /** From step `i`, `k` presses of "next" advance exactly `k` steps while that
      stays within the catalog, and end in the summary on the last step after
      that; with `k == 1`, "next" increments by one from any step but the last. */
  lemma {:induction false} ForwardFrom(i: nat, k: nat)
    requires i < |SurveySteps|
    decreases k
    ensures i + k < |SurveySteps| ==> NextTimes(NavState(i, false), k) == NavState(i + k, false)
    ensures i + k >= |SurveySteps| ==> NextTimes(NavState(i, false), k) == NavState(|SurveySteps| - 1, true)
  {
    if k > 0 {
      if i < |SurveySteps| - 1 {
        ForwardFrom(i + 1, k - 1);
      } else {
        SummaryStays(k - 1);
      }
    }
  }

  lemma {:induction false} SummaryStays(k: nat)
    ensures NextTimes(NavState(|SurveySteps| - 1, true), k) == NavState(|SurveySteps| - 1, true)
  {
    if k > 0 {
      SummaryStays(k - 1);
    }
  }

  /** `activeIndex = Math.min(currentIndex, surveySteps.length - 1)`. */
  function ActiveIndexOf(index: int): (r: int)
    ensures r <= |SurveySteps| - 1
    ensures index <= |SurveySteps| - 1 ==> r == index
  {
    Min(index, |SurveySteps| - 1)
  }

  /** `progress`: 100 in the summary, else `Math.round((activeIndex + 1) / N * 100)`. */
  function ProgressOf(summary: bool, active: int): (r: int)
    ensures summary ==> r == 100
    ensures !summary && 0 <= active ==> r > 0
  {
    if summary then 100 else RoundDiv(100 * (active + 1), |SurveySteps|)
  }

  /** With five steps, step `i` shows `20 * (i + 1)` percent, so the progress
      reaches 100 in the summary and on the last step, and nowhere else. */
  lemma ProgressValues(summary: bool, active: int)
    requires 0 <= active < |SurveySteps|
    ensures !summary ==> ProgressOf(summary, active) == 20 * (active + 1)
    ensures 0 < ProgressOf(summary, active) <= 100
    ensures ProgressOf(summary, active) == 100 <==> summary || active == |SurveySteps| - 1
  {
    SurveyStepsShape();
    RoundDivWhole(20 * (active + 1), 5);
  }

  /** Progress never drops as the index grows outside the summary. */
  lemma ProgressMonotone(i: int, j: int)
    requires i <= j
    ensures ProgressOf(false, ActiveIndexOf(i)) <= ProgressOf(false, ActiveIndexOf(j))
  {
    RoundDivMonotone(100 * (ActiveIndexOf(i) + 1), 100 * (ActiveIndexOf(j) + 1), |SurveySteps|);
  }

  /** The chip rule: step `index` can be jumped to when it is not ahead of the
      active step or when it is already complete. */
  predicate AccessibleFrom(a: SurveyAnswers, active: int, index: int)
    requires 0 <= index < |SurveySteps|
    ensures AccessibleFrom(a, active, index) <==> index <= active || Answered(a, SurveySteps[index])
  {
    IsStepCompleteIffAnswered(a, SurveySteps[index]);
    index <= active || IsStepComplete(a, SurveySteps[index])
  }

  /** `canAdvance`: the summary, or a complete active step. */
  predicate CanAdvanceFrom(a: SurveyAnswers, summary: bool, active: int)
    requires 0 <= active < |SurveySteps|
    ensures CanAdvanceFrom(a, summary, active) <==> summary || Answered(a, SurveySteps[active])
  {
    IsStepCompleteIffAnswered(a, SurveySteps[active]);
    summary || IsStepComplete(a, SurveySteps[active])
  }

  /** At start, the first step can be left only once answered, and besides the
      first step only the timeline (complete from its default) can be jumped to. */
  lemma StartGating()
    ensures !CanAdvanceFrom(InitialAnswers(), false, 0)
    ensures forall i :: 0 <= i < |SurveySteps| ==>
      (AccessibleFrom(InitialAnswers(), 0, i) <==> i == 0 || i == 3)
  {
    InitialCompleteness();
    SurveyStepsShape();
  }

  /** The session, with the three pieces of state the page keeps. */
  class SurveySession {
    var answers: SurveyAnswers
    var currentIndex: int
    var showSummary: bool

    /** The position in range, and an answer for every step. */
    ghost predicate Valid()
      reads this
    {
      InRange(NavState(currentIndex, showSummary)) && StepIds(SurveySteps) <= answers.Keys
    }

    function Position(): NavState
      reads this
    {
      NavState(currentIndex, showSummary)
    }

    /** A new session: initial answers, first step, no summary. */
    constructor ()
      ensures Valid()
      ensures answers == InitialAnswers() && currentIndex == 0 && !showSummary
    {
      var initial := CreateInitialAnswers();
      answers := initial;
      currentIndex := 0;
      showSummary := false;
      SurveyStepsShape();
    }

    function ActiveIndex(): (r: int)
      reads this
      requires Valid()
      ensures 0 <= r < |SurveySteps| && r == currentIndex
    {
      ActiveIndexOf(currentIndex)
    }

    function ActiveStep(): (r: Step)
      reads this
      requires Valid()
      ensures r == SurveySteps[currentIndex]
    {
      SurveySteps[ActiveIndex()]
    }

    function Progress(): (r: int)
      reads this
      requires Valid()
      ensures 0 < r <= 100
      ensures r == 100 <==> showSummary || currentIndex == |SurveySteps| - 1
    {
      ProgressValues(showSummary, ActiveIndex());
      ProgressOf(showSummary, ActiveIndex())
    }

    /** Whether "next" is enabled: in the summary, or once the active step
        is answered. */
    function CanAdvance(): (r: bool)
      reads this
      requires Valid()
      ensures r <==> showSummary || Answered(answers, ActiveStep())
    {
      CanAdvanceFrom(answers, showSummary, ActiveIndex())
    }

    /** Whether the chip of step `index` is enabled. */
    function StepAccessible(index: int): (r: bool)
      reads this
      requires Valid() && 0 <= index < |SurveySteps|
      ensures r <==> index <= currentIndex || Answered(answers, SurveySteps[index])
    {
      AccessibleFrom(answers, ActiveIndex(), index)
    }

    function CompletedCount(): (r: nat)
      reads this
      ensures r <= |SurveySteps|
    {
      StepsCompletedCounts(answers, SurveySteps);
      StepsCompleted(answers, SurveySteps)
    }

    method HandleSingleSelect(stepId: string, value: string)
      requires Valid()
      modifies this
      ensures Valid()
      ensures answers == SingleSelected(old(answers), stepId, value)
      ensures Position() == old(Position())
    {
      answers := SingleSelected(answers, stepId, value);
    }

    method HandleMultiToggle(step: Step, value: string)
      requires Valid()
      requires step.kind.Single? || step.kind.Multi?
      modifies this
      ensures Valid()
      ensures answers == old(answers)[step.id := List(MultiToggled(SelectionOf(old(answers), step.id), value, step.kind.limit))]
      ensures Position() == old(Position())
    {
      answers := MultiToggle(answers, step, value);
    }

    method HandleScaleChange(stepId: string, value: int)
      requires Valid()
      modifies this
      ensures Valid()
      ensures answers == ScaleChanged(old(answers), stepId, value)
      ensures Position() == old(Position())
    {
      answers := ScaleChanged(answers, stepId, value);
    }

    method HandleTextChange(stepId: string, value: string)
      requires Valid()
      modifies this
      ensures Valid()
      ensures answers == TextChanged(old(answers), stepId, value)
      ensures Position() == old(Position())
    {
      answers := TextChanged(answers, stepId, value);
    }

    /** `goToStep(index)`: leaves the summary and jumps to the step. The page
      calls it only with the index of an existing step. */
    method GoToStep(index: int)
      requires Valid() && 0 <= index < |SurveySteps|
      modifies this
      ensures Valid()
      ensures Position() == NavState(index, false)
      ensures answers == old(answers)
    {
      showSummary := false;
      currentIndex := index;
    }

    /** A click on the chip of step `index`: `accessible && goToStep(index)`. */
    method SelectChip(index: int)
      requires Valid() && 0 <= index < |SurveySteps|
      modifies this
      ensures Valid()
      ensures old(StepAccessible(index)) ==> Position() == NavState(index, false)
      ensures !old(StepAccessible(index)) ==> Position() == old(Position())
      ensures answers == old(answers)
    {
      if StepAccessible(index) {
        GoToStep(index);
      }
    }

    method GoNext()
      requires Valid()
      modifies this
      ensures Valid()
      ensures Position() == NextState(old(Position()))
      ensures answers == old(answers)
    {
      if !showSummary && currentIndex < |SurveySteps| - 1 {
        currentIndex := currentIndex + 1;
        return;
      }
      if !showSummary && currentIndex == |SurveySteps| - 1 {
        showSummary := true;
        return;
      }
    }

    method GoPrevious()
      requires Valid()
      modifies this
      ensures Valid()
      ensures Position() == PreviousState(old(Position()))
      ensures answers == old(answers)
    {
      if showSummary {
        showSummary := false;
        currentIndex := |SurveySteps| - 1;
        return;
      }
      if currentIndex > 0 {
        currentIndex := currentIndex - 1;
      }
    }

    /** The summary's "Edit responses" button: leaves the summary and stays on
      the last step. */
    method EditResponses()
      requires Valid()
      modifies this
      ensures Valid()
      ensures Position() == NavState(old(currentIndex), false)
      ensures answers == old(answers)
    {
      showSummary := false;
    }

    /** `resetForm`: the same state as a new session. */
    method ResetForm()
      requires Valid()
      modifies this
      ensures Valid()
      ensures answers == InitialAnswers() && currentIndex == 0 && !showSummary
    {
      answers := CreateInitialAnswers();
      currentIndex := 0;
      showSummary := false;
      SurveyStepsShape();
    }
  }
}
