/** The answer store: one answer per step id, created by kind, updated by the
    four answer handlers, and read by the completeness test. */
module AnswerStore {
  import opened Optional
  import opened Strings
  import opened JsMath
  import opened Catalog

  /** A stored answer: a string (single choice, text), a list of strings
      (multi choice) or a number (scale). */
  datatype Answer = Str(text: string) | List(items: seq<string>) | Num(number: int)

  /** `SurveyAnswers`: a record keyed by step id. A key that is absent reads
      as `undefined`, which is neither a string, an array nor a number. */
  type SurveyAnswers = map<string, Answer>

  // ---- Initial answers ----

  /** The answer a step starts with: an empty list for multi choice, the
      default value (or else the rounded midpoint of the range) for a scale,
      and the empty string otherwise. */
  function InitialAnswer(step: Step): (r: Answer)
    ensures step.kind.Multi? <==> r == List([])
    ensures step.kind.Single? || step.kind.Text? <==> r == Str("")
    ensures step.kind.Scale? <==> r.Num?
    ensures step.kind.Scale? && step.kind.defaultValue.Some? ==> r == Num(step.kind.defaultValue.value)
    ensures step.kind.Scale? && step.kind.defaultValue.None? ==>
      2 * r.number - 1 <= step.kind.min + step.kind.max < 2 * r.number + 1
  {
    match step.kind
    case Multi(_, _) => List([])
    case Scale(min, max, _, _, defaultValue, _) => Num(defaultValue.GetOr(RoundDiv(min + max, 2)))
    case _ => Str("")
  }

  /** The record the `forEach` of `createInitialAnswers` builds from `steps`,
      one step at a time, each step writing its own key. */
  function AnswersFor(steps: seq<Step>): (r: SurveyAnswers)
    decreases |steps|
  {
    if steps == [] then map[]
    else
      var last := steps[|steps| - 1];
      AnswersFor(steps[..|steps| - 1])[last.id := InitialAnswer(last)]
  }

  function StepIds(steps: seq<Step>): set<string>
  {
    set i | 0 <= i < |steps| :: steps[i].id
  }

  /** With unique ids, the record holds exactly one entry per step, and each
      entry is that step's initial answer. */
  lemma {:induction false} AnswersForEntries(steps: seq<Step>)
    requires UniqueIds(steps)
    ensures AnswersFor(steps).Keys == StepIds(steps)
    ensures forall i :: 0 <= i < |steps| ==> AnswersFor(steps)[steps[i].id] == InitialAnswer(steps[i])
  {
    if steps != [] {
      var n := |steps| - 1;
      var init := steps[..n];
      assert forall i :: 0 <= i < n ==> init[i] == steps[i];
      AnswersForEntries(init);
      StepIdsSnoc(steps);
      var prev := AnswersFor(init);
      assert AnswersFor(steps) == prev[steps[n].id := InitialAnswer(steps[n])];
      forall i | 0 <= i < n
        ensures AnswersFor(steps)[steps[i].id] == InitialAnswer(steps[i])
      {
        assert steps[i].id != steps[n].id;
        assert prev[init[i].id] == InitialAnswer(init[i]);
      }
    }
  }

  /** The ids of `steps` are those of all but its last step, plus the last. */
  lemma StepIdsSnoc(steps: seq<Step>)
    requires steps != []
    ensures StepIds(steps) == StepIds(steps[..|steps| - 1]) + {steps[|steps| - 1].id}
  {
    var n := |steps| - 1;
    var init := steps[..n];
    forall x | x in StepIds(steps) ensures x in StepIds(init) + {steps[n].id} {
      var i :| 0 <= i < |steps| && steps[i].id == x;
      if i < n { assert init[i].id == x; }
    }
    forall x | x in StepIds(init) ensures x in StepIds(steps) {
      var i :| 0 <= i < n && init[i].id == x;
      assert steps[i].id == x;
    }
  }

  /** The result of `createInitialAnswers()`. */
  function InitialAnswers(): SurveyAnswers
  {
    AnswersFor(SurveySteps)
  }

  /** `createInitialAnswers`: fills an empty record step by step. */
  method CreateInitialAnswers() returns (base: SurveyAnswers)
    ensures base == InitialAnswers()
    ensures base.Keys == StepIds(SurveySteps)
    ensures forall i :: 0 <= i < |SurveySteps| ==> base[SurveySteps[i].id] == InitialAnswer(SurveySteps[i])
  {
    base := map[];
    var i := 0;
    while i < |SurveySteps|
      invariant 0 <= i <= |SurveySteps|
      invariant base == AnswersFor(SurveySteps[..i])
    {
      var step := SurveySteps[i];
      if step.kind.Multi? {
        base := base[step.id := List([])];
      } else if step.kind.Scale? {
        var midpoint := RoundDiv(step.kind.min + step.kind.max, 2);
        base := base[step.id := Num(step.kind.defaultValue.GetOr(midpoint))];
      } else {
        base := base[step.id := Str("")];
      }
      assert SurveySteps[..i + 1][..i] == SurveySteps[..i];
      i := i + 1;
    }
    assert SurveySteps[..i] == SurveySteps;
    SurveyStepsShape();
    AnswersForEntries(SurveySteps);
  }

  /** The initial record, key by key: role, vibe and vision empty, no focus
      selected, and the timeline at its default of 6. */
  lemma InitialAnswersValues()
    ensures InitialAnswers().Keys == {"role", "vibe", "focus", "timeline", "vision"}
    ensures InitialAnswers()["role"] == Str("")
    ensures InitialAnswers()["vibe"] == Str("")
    ensures InitialAnswers()["focus"] == List([])
    ensures InitialAnswers()["timeline"] == Num(6)
    ensures InitialAnswers()["vision"] == Str("")
  {
    SurveyStepsShape();
    AnswersForEntries(SurveySteps);
    var s := SurveySteps;
    assert StepIds(s) == {"role", "vibe", "focus", "timeline", "vision"} by {
      assert s[0].id == "role" && s[1].id == "vibe" && s[2].id == "focus";
      assert s[3].id == "timeline" && s[4].id == "vision";
    }
  }

  // ---- Completeness ----

  /** `isStepComplete`: a multi-choice step has a non-empty list, a scale step
      holds a number, and any other step holds a string that is not empty
      after trimming. */
  predicate IsStepComplete(a: SurveyAnswers, step: Step)
  {
    && step.id in a
    && match step.kind
       case Multi(_, _) => a[step.id].List? && |a[step.id].items| > 0
       case Scale(_, _, _, _, _, _) => a[step.id].Num?
       case _ => a[step.id].Str? && |Trim(a[step.id].text)| > 0
  }

  /** What it means for a step to be answered: a multi-choice step has a
      selection, a scale step a value, and the other steps a string with some
      character that is not whitespace. */
  predicate Answered(a: SurveyAnswers, step: Step)
  {
    step.id in a &&
    match a[step.id]
    case List(items) => step.kind.Multi? && items != []
    case Num(_) => step.kind.Scale?
    case Str(text) => (step.kind.Single? || step.kind.Text?) && !IsBlank(text)
  }

  lemma IsStepCompleteIffAnswered(a: SurveyAnswers, step: Step)
    ensures IsStepComplete(a, step) <==> Answered(a, step)
  {
    if step.id in a && a[step.id].Str? {
      TrimEmptyIffBlank(a[step.id].text);
    }
  }

  /** One term of the `stepsCompleted` reduce, as the reduce writes it. */
  function ReduceTerm(a: SurveyAnswers, step: Step): (r: nat)
    ensures r <= 1
  {
    var answer := if step.id in a then Some(a[step.id]) else None;
    match step.kind
    case Multi(_, _) => if answer.Some? && answer.value.List? && |answer.value.items| > 0 then 1 else 0
    case Scale(_, _, _, _, _, _) => if answer.Some? && answer.value.Num? then 1 else 0
    case _ => if answer.Some? && answer.value.Str? && |Trim(answer.value.text)| > 0 then 1 else 0
  }

  /** `stepsCompleted`: the reduce over `steps`, from the left, starting at 0. */
  function StepsCompleted(a: SurveyAnswers, steps: seq<Step>): (r: nat)
    decreases |steps|
    ensures r <= |steps|
  {
    if steps == [] then 0
    else StepsCompleted(a, steps[..|steps| - 1]) + ReduceTerm(a, steps[|steps| - 1])
  }

  /** The positions of the steps that `isStepComplete` accepts. */
  function CompleteIndices(a: SurveyAnswers, steps: seq<Step>): set<int>
  {
    set i | 0 <= i < |steps| && IsStepComplete(a, steps[i])
  }

  /** The reduce counts exactly the steps `isStepComplete` accepts, so it never
      exceeds the number of steps. */
  lemma {:induction false} StepsCompletedCounts(a: SurveyAnswers, steps: seq<Step>)
    ensures StepsCompleted(a, steps) == |CompleteIndices(a, steps)|
    ensures StepsCompleted(a, steps) <= |steps|
  {
    if steps == [] {
      assert CompleteIndices(a, steps) == {};
    } else {
      var n := |steps| - 1;
      var init := steps[..n];
      StepsCompletedCounts(a, init);
      ReduceTermAgrees(a, steps[n]);
      CompleteIndicesSnoc(a, steps);
      var before := CompleteIndices(a, init);
      if IsStepComplete(a, steps[n]) {
        assert |before + {n}| == |before| + 1;
      }
    }
  }

  lemma ReduceTermAgrees(a: SurveyAnswers, step: Step)
    ensures ReduceTerm(a, step) == if IsStepComplete(a, step) then 1 else 0
  {
  }

  lemma CompleteIndicesSnoc(a: SurveyAnswers, steps: seq<Step>)
    requires steps != []
    ensures var n := |steps| - 1;
      CompleteIndices(a, steps) ==
        CompleteIndices(a, steps[..n]) + (if IsStepComplete(a, steps[n]) then {n} else {})
    ensures |steps| - 1 !in CompleteIndices(a, steps[..|steps| - 1])
  {
    var n := |steps| - 1;
    var init := steps[..n];
    assert forall i :: 0 <= i < n ==> init[i] == steps[i];
  }

  /** In the initial record a step is complete exactly when it is a scale. */
  lemma InitialStepStatus()
    ensures forall i :: 0 <= i < |SurveySteps| ==>
      (IsStepComplete(InitialAnswers(), SurveySteps[i]) <==> SurveySteps[i].kind.Scale?)
  {
    SurveyStepsShape();
    AnswersForEntries(SurveySteps);
    var a := InitialAnswers();
    var s := SurveySteps;
    forall i | 0 <= i < |s|
      ensures IsStepComplete(a, s[i]) <==> s[i].kind.Scale?
    {
      assert a[s[i].id] == InitialAnswer(s[i]);
    }
  }

  /** At start only the scale step (the timeline) counts as complete. */
  lemma InitialCompleteness()
    ensures forall i :: 0 <= i < |SurveySteps| ==>
      (IsStepComplete(InitialAnswers(), SurveySteps[i]) <==> i == 3)
    ensures StepsCompleted(InitialAnswers(), SurveySteps) == 1
  {
    InitialStepStatus();
    SurveyStepsShape();
    var a := InitialAnswers();
    var s := SurveySteps;
    assert forall i :: 0 <= i < |s| ==> (s[i].kind.Scale? <==> i == 3);
    StepsCompletedCounts(a, s);
    assert CompleteIndices(a, s) == {3};
  }

  // ---- Single choice ----

  /** `handleSingleSelect`: choosing the stored value again clears it to the
      empty string; choosing any other value stores it. No other key changes. */
  function SingleSelected(prev: SurveyAnswers, id: string, v: string): (r: SurveyAnswers)
    ensures r.Keys == prev.Keys + {id}
    ensures forall k :: k in prev && k != id ==> r[k] == prev[k]
    ensures r[id] == Str("") <==> v == "" || (id in prev && prev[id] == Str(v))
    ensures r[id] == Str("") || r[id] == Str(v)
  {
    prev[id := if id in prev && prev[id] == Str(v) then Str("") else Str(v)]
  }

  /** Selecting the same value twice restores the value that was stored when it
      was empty or that value, and otherwise ends at the empty string. */
  lemma SingleSelectTwice(a: SurveyAnswers, id: string, v: string)
    ensures id in a && (a[id] == Str("") || a[id] == Str(v)) ==>
      SingleSelected(SingleSelected(a, id, v), id, v) == a
    ensures !(id in a && a[id] == Str(v)) ==> SingleSelected(SingleSelected(a, id, v), id, v)[id] == Str("")
  {
    var once := SingleSelected(a, id, v);
    var twice := SingleSelected(once, id, v);
    if id in a && (a[id] == Str("") || a[id] == Str(v)) {
      assert twice[id] == a[id];
      assert twice.Keys == a.Keys;
    }
  }

  // ---- Multi choice ----

  /** The current selection under `id`: the stored list, or `[]` when the key
      holds anything else or nothing. */
  function SelectionOf(a: SurveyAnswers, id: string): (r: seq<string>)
    ensures id in a && a[id].List? ==> r == a[id].items
    ensures !(id in a && a[id].List?) ==> r == []
  {
    if id in a && a[id].List? then a[id].items else []
  }

  predicate NoDuplicates(s: seq<string>)
  {
    forall i, j :: 0 <= i < j < |s| ==> s[i] != s[j]
  }

  /** `s.filter((item) => item !== v)`. */
  function Without(s: seq<string>, v: string): (r: seq<string>)
    ensures forall x :: x in r <==> x in s && x != v
    ensures |r| <= |s|
    ensures v !in s ==> r == s
  {
    if s == [] then []
    else if s[0] == v then Without(s[1..], v)
    else [s[0]] + Without(s[1..], v)
  }

  /** Filtering keeps a list free of duplicates, and removes exactly one
      element from such a list that holds `v`. */
  lemma {:induction false} WithoutOfDistinct(s: seq<string>, v: string)
    requires NoDuplicates(s)
    ensures NoDuplicates(Without(s, v))
    ensures v in s ==> |Without(s, v)| == |s| - 1
  {
    if s != [] {
      assert NoDuplicates(s[1..]) by {
        forall i, j | 0 <= i < j < |s| - 1 ensures s[1..][i] != s[1..][j] {
          assert s[1..][i] == s[i + 1] && s[1..][j] == s[j + 1];
        }
      }
      WithoutOfDistinct(s[1..], v);
      assert s[0] !in s[1..] by {
        forall j | 0 <= j < |s| - 1 ensures s[1..][j] != s[0] {
          assert s[1..][j] == s[j + 1];
        }
      }
      if s[0] == v {
        assert v !in s[1..];
      } else {
        var r := [s[0]] + Without(s[1..], v);
        assert v in s ==> v in s[1..];
        forall i, j | 0 <= i < j < |r| ensures r[i] != r[j] {
          if i == 0 {
            assert r[j] in Without(s[1..], v);
          } else {
            assert r[i] == Without(s[1..], v)[i - 1] && r[j] == Without(s[1..], v)[j - 1];
          }
        }
      }
    }
  }

  /** Filtering distributes over concatenation, so the kept elements stay in
      their original order. */
  lemma {:induction false} WithoutConcat(s: seq<string>, t: seq<string>, v: string)
    ensures Without(s + t, v) == Without(s, v) + Without(t, v)
  {
    if s != [] {
      assert (s + t)[1..] == s[1..] + t;
      WithoutConcat(s[1..], t, v);
    } else {
      assert s + t == t;
    }
  }

  /** In a duplicate-free list the value at position `k` occurs nowhere else. */
  lemma OccursOnlyAt(s: seq<string>, k: int)
    requires NoDuplicates(s) && 0 <= k < |s|
    ensures s[k] !in s[..k] && s[k] !in s[k + 1..]
  {
    var head, tail := s[..k], s[k + 1..];
    forall j | 0 <= j < |head| ensures head[j] != s[k] {
      assert head[j] == s[j];
    }
    forall j | 0 <= j < |tail| ensures tail[j] != s[k] {
      assert tail[j] == s[k + 1 + j];
    }
  }

  /** In a duplicate-free list, filtering out the value at position `k` leaves
      the elements before it followed by the elements after it. */
  lemma WithoutRemovesAt(s: seq<string>, v: string, k: int)
    requires NoDuplicates(s) && 0 <= k < |s| && s[k] == v
    ensures Without(s, v) == s[..k] + s[k + 1..]
  {
    var head, tail := s[..k], s[k + 1..];
    OccursOnlyAt(s, k);
    assert s == head + ([v] + tail);
    WithoutConcat(head, [v] + tail, v);
    WithoutConcat([v], tail, v);
    assert Without([v], v) == [];
  }

  /** `step.limit && current.length >= step.limit`: a limit that is absent or 0
      never applies. */
  predicate LimitReached(limit: Option<int>, count: nat)
  {
    limit.Some? && limit.value != 0 && count >= limit.value
  }

  /** `Array.prototype.shift` on the copy: drops the oldest entry, if any. */
  function Shift(s: seq<string>): (r: seq<string>)
    ensures s != [] ==> r == s[1..]
    ensures s == [] ==> r == []
  {
    if s == [] then [] else s[1..]
  }

  /** The list `handleMultiToggle` stores: a selected value is filtered out;
      otherwise the value is appended, after evicting the oldest entry when the
      limit is reached. */
  function MultiToggled(current: seq<string>, v: string, limit: Option<int>): (r: seq<string>)
    ensures v in r <==> v !in current
    ensures v !in current ==> |r| > 0 && r[|r| - 1] == v
    ensures |r| <= |current| + 1
  {
    if v in current then Without(current, v)
    else (if LimitReached(limit, |current|) then Shift(current) else current) + [v]
  }

  /** `handleMultiToggle(step, v)`: copies the selection, then either filters
      `v` out or shifts and pushes. Only the step's own key changes. */
  method MultiToggle(prev: SurveyAnswers, step: Step, v: string) returns (next: SurveyAnswers)
    requires step.kind.Single? || step.kind.Multi?
    ensures next == prev[step.id := List(MultiToggled(SelectionOf(prev, step.id), v, step.kind.limit))]
  {
    var current := SelectionOf(prev, step.id);
    if v in current {
      next := prev[step.id := List(Without(current, v))];
      return;
    }
    var limit := step.kind.limit;
    if limit.Some? && limit.value != 0 && |current| >= limit.value {
      if current != [] {
        current := current[1..];
      }
    }
    current := current + [v];
    next := prev[step.id := List(current)];
  }

  /** Under a positive limit, toggling keeps a duplicate-free selection within
      the limit: a new value ends the list (evicting the oldest entry when the
      list is full), and a selected value is removed. */
  lemma MultiToggleKeepsCap(s: seq<string>, v: string, n: int)
    requires NoDuplicates(s) && 1 <= n && |s| <= n
    ensures var r := MultiToggled(s, v, Some(n));
      && NoDuplicates(r) && |r| <= n
      && (v !in s && |s| == n ==> r == s[1..] + [v])
      && (v !in s && |s| < n ==> r == s + [v])
      && (v in s ==> v !in r && |r| == |s| - 1)
      && (forall k :: 0 <= k < |s| && s[k] == v ==> r == s[..k] + s[k + 1..])
  {
    var r := MultiToggled(s, v, Some(n));
    if v in s {
      WithoutOfDistinct(s, v);
      forall k | 0 <= k < |s| && s[k] == v ensures r == s[..k] + s[k + 1..] {
        WithoutRemovesAt(s, v, k);
      }
    } else {
      var kept := if |s| == n then s[1..] else s;
      assert r == kept + [v];
      forall i, j | 0 <= i < j < |r| ensures r[i] != r[j] {
        if |s| == n {
          assert r[i] == s[i + 1];
          if j < |r| - 1 { assert r[j] == s[j + 1]; }
        } else {
          assert r[i] == s[i];
          if j < |r| - 1 { assert r[j] == s[j]; }
        }
      }
    }
  }

  /** A worked example: with a limit of 3, toggling `d` into
      `[a, b, c]` gives `[b, c, d]`. */
  lemma MultiToggleEvictsOldest(a: string, b: string, c: string, d: string)
    requires d != a && d != b && d != c
    ensures MultiToggled([a, b, c], d, Some(3)) == [b, c, d]
  {
    assert d !in [a, b, c];
  }

  /** Without a limit (absent or 0) a new value is simply appended. */
  lemma MultiToggleUnbounded(s: seq<string>, v: string, limit: Option<int>)
    requires limit.None? || limit == Some(0)
    requires v !in s
    ensures MultiToggled(s, v, limit) == s + [v]
  {
  }

  /** Adding a value when no eviction happens and then toggling it again
      restores the selection. */
  lemma MultiToggleUndo(s: seq<string>, v: string, limit: Option<int>)
    requires v !in s && !LimitReached(limit, |s|)
    ensures MultiToggled(MultiToggled(s, v, limit), v, limit) == s
  {
    WithoutAppended(s, v);
  }

  lemma {:induction false} WithoutAppended(s: seq<string>, v: string)
    requires v !in s
    ensures Without(s + [v], v) == s
  {
    if s != [] {
      assert (s + [v])[1..] == s[1..] + [v];
      WithoutAppended(s[1..], v);
    } else {
      assert [v][1..] == [];
    }
  }

  // ---- Scale and text ----

  /** `handleScaleChange`: stores the value under the key, nothing else changes. */
  function ScaleChanged(prev: SurveyAnswers, id: string, v: int): (r: SurveyAnswers)
    ensures r.Keys == prev.Keys + {id}
    ensures r[id] == Num(v)
    ensures forall k :: k in prev && k != id ==> r[k] == prev[k]
  {
    prev[id := Num(v)]
  }

  /** `handleTextChange`: stores the raw, untrimmed text under the key,
      nothing else changes. */
  function TextChanged(prev: SurveyAnswers, id: string, v: string): (r: SurveyAnswers)
    ensures r.Keys == prev.Keys + {id}
    ensures r[id] == Str(v)
    ensures forall k :: k in prev && k != id ==> r[k] == prev[k]
  {
    prev[id := Str(v)]
  }

  /** Typing into a text step completes it exactly when the text has a
      character that is not whitespace; the stored text is the raw text. */
  lemma TextChangedCompletes(a: SurveyAnswers, step: Step, v: string)
    requires step.kind.Text?
    ensures IsStepComplete(TextChanged(a, step.id, v), step) <==> !IsBlank(v)
  {
    TrimEmptyIffBlank(v);
  }

  /** Moving the slider always leaves the scale step complete. */
  lemma ScaleChangedCompletes(a: SurveyAnswers, step: Step, v: int)
    requires step.kind.Scale?
    ensures IsStepComplete(ScaleChanged(a, step.id, v), step)
  {
  }

  /** A single-choice step is complete after a selection exactly when the
      selection did not clear it. */
  lemma SingleSelectedCompletes(a: SurveyAnswers, step: Step, v: string)
    requires step.kind.Single? && !IsBlank(v)
    ensures IsStepComplete(SingleSelected(a, step.id, v), step) <==>
      !(step.id in a && a[step.id] == Str(v))
  {
    TrimEmptyIffBlank(v);
    TrimEmptyIffBlank("");
  }
}
