/** The derivation engine: values recomputed from the answers on every read —
    the fallback selections, the tempo label, the checkpoint offset, the
    momentum score, the summary insights and the roadmap. */
module Derivation {
  import opened Optional
  import opened Strings
  import opened JsMath
  import opened Catalog
  import opened AnswerStore

  // ---- Fallback resolution ----

  const VisionFallback := "Capture signal that proves we're the category team to watch."

  /** `focusSelections`: the stored focus list, or `[]` when there is none. */
  function FocusSelections(a: SurveyAnswers): (r: seq<string>)
    ensures "focus" in a && a["focus"].List? ==> r == a["focus"].items
    ensures !("focus" in a && a["focus"].List?) ==> r == []
  {
    SelectionOf(a, "focus")
  }

  /** `timelineStep?.defaultValue ?? 6`. */
  function TimelineDefault(): (r: int)
    ensures r == 6
  {
    match TimelineStep()
    case Some(step) => if step.kind.Scale? then step.kind.defaultValue.GetOr(6) else 6
    case None => 6
  }

  /** `timelineStep?.max ?? 12`. */
  function TimelineMax(): (r: int)
    ensures r == 12
  {
    match TimelineStep()
    case Some(step) => if step.kind.Scale? then step.kind.max else 12
    case None => 12
  }

  /** `timelineValue`: the stored number, or the default when the entry is not
      a number. */
  function TimelineValue(a: SurveyAnswers): (r: int)
    ensures "timeline" in a && a["timeline"].Num? ==> r == a["timeline"].number
    ensures !("timeline" in a && a["timeline"].Num?) ==> r == 6
  {
    if "timeline" in a && a["timeline"].Num? then a["timeline"].number else TimelineDefault()
  }

  /** `visionStatement`: the trimmed text, or the fixed fallback when the text
      is blank or missing. Either way it is non-empty and trimmed. */
  function VisionStatement(a: SurveyAnswers): (r: string)
    ensures "vision" in a && a["vision"].Str? && !IsBlank(a["vision"].text) ==> r == Trim(a["vision"].text)
    ensures !("vision" in a && a["vision"].Str? && !IsBlank(a["vision"].text)) ==> r == VisionFallback
    ensures r != []
    ensures r != VisionFallback ==> !IsWhitespace(r[0]) && !IsWhitespace(r[|r| - 1])
  {
    assert |VisionFallback| == 60;
    if "vision" in a && a["vision"].Str? && |Trim(a["vision"].text)| > 0 then
      TrimEmptyIffBlank(a["vision"].text);
      TrimIsSlice(a["vision"].text);
      Trim(a["vision"].text)
    else
      if "vision" in a && a["vision"].Str? then TrimEmptyIffBlank(a["vision"].text); VisionFallback
      else VisionFallback
  }

  /** `roleSelection`: the stored role, or "founder" when it is empty or not a
      string. (Only emptiness is tested here, not blankness.) */
  function RoleSelection(a: SurveyAnswers): (r: string)
    ensures r != ""
    ensures "role" in a && a["role"].Str? && a["role"].text != "" ==> r == a["role"].text
    ensures !("role" in a && a["role"].Str? && a["role"].text != "") ==> r == "founder"
  {
    if "role" in a && a["role"].Str? && |a["role"].text| > 0 then a["role"].text else "founder"
  }

  /** `vibeSelection`: the stored vibe, or "premium" when it is empty or not a string. */
  function VibeSelection(a: SurveyAnswers): (r: string)
    ensures r != ""
    ensures "vibe" in a && a["vibe"].Str? && a["vibe"].text != "" ==> r == a["vibe"].text
    ensures !("vibe" in a && a["vibe"].Str? && a["vibe"].text != "") ==> r == "premium"
  {
    if "vibe" in a && a["vibe"].Str? && |a["vibe"].text| > 0 then a["vibe"].text else "premium"
  }

  /** `vibeCopy[vibeSelection]`; `None` is JavaScript's `undefined`. */
  function VibeMeta(a: SurveyAnswers): (r: Option<VibeEntry>)
    ensures r.Some? <==> VibeSelection(a) in VibeCopy
    ensures r.Some? ==> r.value == VibeCopy[VibeSelection(a)]
  {
    if VibeSelection(a) in VibeCopy then Some(VibeCopy[VibeSelection(a)]) else None
  }

  /** `roleCopy[roleSelection]`; `None` is JavaScript's `undefined`. */
  function RoleMeta(a: SurveyAnswers): (r: Option<RoleEntry>)
    ensures r.Some? <==> RoleSelection(a) in RoleCopy
    ensures r.Some? ==> r.value == RoleCopy[RoleSelection(a)]
  {
    if RoleSelection(a) in RoleCopy then Some(RoleCopy[RoleSelection(a)]) else None
  }

  /** `focusSelections.map((focus) => focusCopy[focus]).filter(Boolean)`:
      the copy entries of the known selections, in selection order. */
  function FocusMeta(selections: seq<string>): (r: seq<FocusEntry>)
    ensures |r| <= |selections|
    ensures forall e :: e in r ==> e in FocusCopy.Values
  {
    if selections == [] then []
    else if selections[0] in FocusCopy then [FocusCopy[selections[0]]] + FocusMeta(selections[1..])
    else FocusMeta(selections[1..])
  }

  /** When every selection is a known focus value, nothing is dropped and the
      entries line up with the selections. */
  lemma {:induction false} FocusMetaOfKnown(selections: seq<string>)
    requires forall x :: x in selections ==> x in FocusCopy
    ensures |FocusMeta(selections)| == |selections|
    ensures forall i :: 0 <= i < |selections| ==> FocusMeta(selections)[i] == FocusCopy[selections[i]]
  {
    if selections != [] {
      FocusMetaOfKnown(selections[1..]);
      var r := FocusMeta(selections);
      forall i | 0 <= i < |selections| ensures r[i] == FocusCopy[selections[i]] {
        if i > 0 {
          assert r[i] == FocusMeta(selections[1..])[i - 1];
          assert selections[1..][i - 1] == selections[i];
        }
      }
    }
  }

  /** `map` and `filter` work element by element, so the entries of a
      concatenation are the entries of each part, in order. */
  lemma {:induction false} FocusMetaConcat(s: seq<string>, t: seq<string>)
    ensures FocusMeta(s + t) == FocusMeta(s) + FocusMeta(t)
  {
    if s != [] {
      assert (s + t)[1..] == s[1..] + t;
      FocusMetaConcat(s[1..], t);
    } else {
      assert s + t == t;
    }
  }

  /** A single selection yields its copy entry when it is known, and nothing
      otherwise. With FocusMetaConcat this fixes the result of every list. */
  lemma FocusMetaOne(x: string)
    ensures FocusMeta([x]) == if x in FocusCopy then [FocusCopy[x]] else []
  {
    assert [x][1..] == [];
  }

  /** A worked example: an unknown value is dropped and the known entries
      keep their order. */
  lemma FocusMetaDropsUnknown()
    ensures FocusMeta(["bogus", "ai-layer", "story"]) == [FocusCopy["ai-layer"], FocusCopy["story"]]
  {
    FocusMetaConcat(["bogus"], ["ai-layer", "story"]);
    FocusMetaConcat(["ai-layer"], ["story"]);
    FocusMetaOne("bogus");
    FocusMetaOne("ai-layer");
    FocusMetaOne("story");
    assert ["bogus"] + ["ai-layer", "story"] == ["bogus", "ai-layer", "story"];
    assert ["ai-layer"] + ["story"] == ["ai-layer", "story"];
  }

  /** Unknown values are the only ones dropped: the list is empty exactly when
      no selection is a known focus value. */
  lemma {:induction false} FocusMetaEmptyIff(selections: seq<string>)
    ensures FocusMeta(selections) == [] <==> forall x :: x in selections ==> x !in FocusCopy
  {
    if selections != [] {
      FocusMetaEmptyIff(selections[1..]);
      assert forall x :: x in selections <==> x == selections[0] || x in selections[1..];
    }
  }

  // ---- Tempo and checkpoint ----

  const TempoLabels: seq<string> :=
    ["Lightning launch", "Sprint-ready", "Strategic rollout", "Long-term evolution"]

  /** `timelineLabel`: the tempo band of the timeline value. */
  function TimelineLabel(t: int): (r: string)
    ensures r in TempoLabels
  {
    if t <= 3 then "Lightning launch"
    else if t <= 6 then "Sprint-ready"
    else if t <= 9 then "Strategic rollout"
    else "Long-term evolution"
  }

  /** On the slider's range 1 to 12 the bands are three values wide, in order. */
  lemma TimelineLabelBands(t: int)
    requires 1 <= t <= 12
    ensures TimelineLabel(t) == TempoLabels[(t - 1) / 3]
  {
  }

  /** The position of a tempo label among the bands. */
  function TempoRank(tempo: string): int
  {
    if tempo == TempoLabels[0] then 0
    else if tempo == TempoLabels[1] then 1
    else if tempo == TempoLabels[2] then 2
    else 3
  }

  /** A longer timeline never gets a faster tempo band. */
  lemma TimelineLabelMonotone(t1: int, t2: int)
    requires t1 <= t2
    ensures TempoRank(TimelineLabel(t1)) <= TempoRank(TimelineLabel(t2))
  {
  }

  /** `Math.max(1, Math.round(timelineValue))`: the weeks until the checkpoint. */
  function CheckpointWeeks(t: int): (r: int)
    ensures r >= 1
    ensures t >= 1 ==> r == t
  {
    RoundDivWhole(t, 1);
    Max(1, RoundDiv(t, 1))
  }

  /** The days `checkpointDate` adds to today: whole weeks, at least one. */
  function CheckpointOffsetDays(t: int): (r: int)
    ensures r >= 7 && r % 7 == 0
    ensures t >= 1 ==> r == 7 * t
    ensures t < 1 ==> r == 7
  {
    CheckpointWeeks(t) * 7
  }

  // ---- Momentum score ----

  /** `vibeWeight`: 18 for experimental, 16 for premium, 12 otherwise. */
  function VibeWeight(vibe: string): (r: int)
    ensures 12 <= r <= 18
    ensures vibe == "experimental" ==> r == 18
    ensures vibe == "premium" ==> r == 16
    ensures vibe != "experimental" && vibe != "premium" ==> r == 12
  {
    if vibe == "experimental" then 18 else if vibe == "premium" then 16 else 12
  }

  /** The momentum score for timeline `t`, `focusCount` selections, a vibe and
      the scale's maximum, in exact integers: with `d = maxValue - 1` the raw
      score times `d` is `60d - 28(t - 1) + d(20 + 8 focusCount + vibeWeight)`;
      it is rounded, then clamped to [48, 97]. */
  function MomentumFrom(t: int, focusCount: nat, vibe: string, maxValue: int): (r: int)
    requires maxValue > 1
    ensures 48 <= r <= 97
  {
    var d := maxValue - 1;
    var scaled := 60 * d - 28 * (t - 1) + d * (20 + 8 * focusCount + VibeWeight(vibe));
    Clamp(48, 97, RoundDiv(scaled, d))
  }

  /** `momentumScore`: uses the raw count of focus selections, known or not. */
  function MomentumScore(a: SurveyAnswers): (r: int)
    ensures 48 <= r <= 97
  {
    MomentumFrom(TimelineValue(a), |FocusSelections(a)|, VibeSelection(a), TimelineMax())
  }

  /** The source's formula over the reals, with the scale maximum of 12. */
  ghost function RawScore(t: int, focusCount: nat, vibe: string): real
  {
    var vibeWeight := if vibe == "experimental" then 18.0 else if vibe == "premium" then 16.0 else 12.0;
    60.0 - ((t - 1) as real / 11.0) * 28.0 + (20.0 + (focusCount * 8) as real) + vibeWeight
  }

  /** `Math.round` over the reals: `floor(x + 1/2)`. */
  ghost function JsRound(x: real): int
  {
    (x + 0.5).Floor
  }

  /** The integer computation agrees with rounding and clamping the real-valued
      formula of the source. */
  lemma MomentumMatchesRealFormula(t: int, focusCount: nat, vibe: string)
    ensures MomentumFrom(t, focusCount, vibe, 12) == Clamp(48, 97, JsRound(RawScore(t, focusCount, vibe)))
  {
    var scaled := 60 * 11 - 28 * (t - 1) + 11 * (20 + 8 * focusCount + VibeWeight(vibe));
    var x := RawScore(t, focusCount, vibe);
    assert VibeWeight(vibe) as real ==
      if vibe == "experimental" then 18.0 else if vibe == "premium" then 16.0 else 12.0;
    assert x * 11.0 == scaled as real;
    var k := JsRound(x);
    assert k as real <= x + 0.5 < k as real + 1.0;
    assert 2 * 11 * k - 11 <= 2 * scaled < 2 * 11 * k + 11 by {
      assert (2 * 11 * k - 11) as real <= 2.0 * (x * 11.0);
      assert 2.0 * (x * 11.0) < (2 * 11 * k + 11) as real;
    }
    RoundDivUnique(scaled, 11, k);
  }

  /** The score of a set of answers is the rounded, clamped real formula
      applied to the raw number of focus selections, known or not. */
  lemma MomentumScoreFormula(a: SurveyAnswers)
    ensures MomentumScore(a) ==
      Clamp(48, 97, JsRound(RawScore(TimelineValue(a), |FocusSelections(a)|, VibeSelection(a))))
  {
    MomentumMatchesRealFormula(TimelineValue(a), |FocusSelections(a)|, VibeSelection(a));
  }

  /** A longer timeline never raises the score; more focus selections never
      lower it. */
  lemma MomentumMonotone(t1: int, t2: int, f1: nat, f2: nat, vibe: string)
    requires t1 <= t2 && f1 >= f2
    ensures MomentumFrom(t2, f2, vibe, 12) <= MomentumFrom(t1, f1, vibe, 12)
  {
    var s1 := 660 - 28 * (t1 - 1) + 11 * (20 + 8 * f1 + VibeWeight(vibe));
    var s2 := 660 - 28 * (t2 - 1) + 11 * (20 + 8 * f2 + VibeWeight(vibe));
    RoundDivMonotone(s2, s1, 11);
  }

  /** On the inputs the page can produce (timeline 1 to 12, at most three
      selections) the raw score lies in [64, 122], so the lower clamp never
      applies and the score is at least 64. */
  lemma MomentumOnSliderRange(t: int, focusCount: nat, vibe: string)
    requires 1 <= t <= 12 && focusCount <= 3
    ensures 64 <= MomentumFrom(t, focusCount, vibe, 12) <= 97
  {
    MomentumMonotone(t, 12, focusCount, 0, vibe);
    var s := 660 - 28 * 11 + 11 * (20 + VibeWeight(vibe));
    assert RoundDiv(s, 11) >= 64 by {
      RoundDivWhole(64, 11);
      RoundDivMonotone(64 * 11, s, 11);
    }
  }

  // ---- Summary insights ----

  datatype Insight = Insight(title: string, detail: string, tag: string)

  const DefaultPrimaryFocus := "Product foundations"
  const FocusSignalFallback := "Channel energy into the area with the highest leverage."
  const UnlockFallback := "Document the playbook so learnings compound across the team."

  /** The four insights built from the known focus entries, the tempo label,
      the checkpoint date and the vibe's copy entry. */
  function InsightsFrom(focusMeta: seq<FocusEntry>, tempo: string, checkpointDate: string,
                        vibeMeta: VibeEntry): (r: seq<Insight>)
    ensures |r| == 4
    ensures r[0].tag == "Focus signal" && r[1].tag == "Tempo" && r[2].tag == "Experience" && r[3].tag == "Next up"
    ensures r[3].title == "What to unlock next"
  {
    var primaryFocus := if |focusMeta| > 0 then focusMeta[0].caption else DefaultPrimaryFocus;
    [
      Insight("Lead with " + ToLower(primaryFocus),
        if |focusMeta| > 0 then focusMeta[0].signal else FocusSignalFallback,
        "Focus signal"),
      Insight(tempo,
        "Plan for first win by " + checkpointDate + ". Keep weekly demos to prove traction.",
        "Tempo"),
      Insight(vibeMeta.caption, vibeMeta.headline, "Experience"),
      Insight("What to unlock next",
        if |focusMeta| > 1 then focusMeta[1].payoff else UnlockFallback,
        "Next up")
    ]
  }

  /** `summaryInsights`: four insights — the lead focus and its signal, the
      tempo and checkpoint, the vibe, and the second focus's payoff — with a
      fallback text where there is no first or no second known focus. `None`
      when the vibe has no copy entry, where the source reads a field of
      `undefined`. */
  function SummaryInsights(a: SurveyAnswers, checkpointDate: string): (r: Option<seq<Insight>>)
    ensures r.Some? <==> VibeMeta(a).Some?
    ensures r.Some? ==> |r.value| == 4
  {
    match VibeMeta(a)
    case None => None
    case Some(vibeMeta) =>
      Some(InsightsFrom(FocusMeta(FocusSelections(a)), TimelineLabel(TimelineValue(a)), checkpointDate, vibeMeta))
  }

  /** The focus insights follow the known focus entries: the first insight
      leads with the first entry's label and signal (or the fallbacks when
      there is none), the last carries the second entry's payoff (or the
      fallback when there are fewer than two). */
  lemma InsightsFollowFocus(focusMeta: seq<FocusEntry>, tempo: string, checkpointDate: string, vibeMeta: VibeEntry)
    ensures var r := InsightsFrom(focusMeta, tempo, checkpointDate, vibeMeta);
      && (|focusMeta| >= 1 ==>
            r[0].detail == focusMeta[0].signal && r[0].title == "Lead with " + ToLower(focusMeta[0].caption))
      && (|focusMeta| == 0 ==>
            r[0].detail == FocusSignalFallback && r[0].title == "Lead with " + ToLower(DefaultPrimaryFocus))
      && (|focusMeta| >= 2 ==> r[3].detail == focusMeta[1].payoff)
      && (|focusMeta| < 2 ==> r[3].detail == UnlockFallback)
      && r[3].title == "What to unlock next"
  {
  }

  /** With all selections known, the first insight carries the first
      selection's signal and the last the second selection's payoff. */
  lemma InsightsFollowSelections(a: SurveyAnswers, checkpointDate: string)
    requires VibeMeta(a).Some?
    requires forall x :: x in FocusSelections(a) ==> x in FocusCopy
    ensures var r, sel := SummaryInsights(a, checkpointDate).value, FocusSelections(a);
      && (|sel| >= 1 ==> r[0].detail == FocusCopy[sel[0]].signal)
      && (|sel| >= 2 ==> r[3].detail == FocusCopy[sel[1]].payoff)
      && (|sel| < 2 ==> r[3].detail == UnlockFallback)
  {
    var sel := FocusSelections(a);
    var fm := FocusMeta(sel);
    FocusMetaOfKnown(sel);
    var r := InsightsFrom(fm, TimelineLabel(TimelineValue(a)), checkpointDate, VibeMeta(a).value);
    InsightsFollowFocus(fm, TimelineLabel(TimelineValue(a)), checkpointDate, VibeMeta(a).value);
    assert SummaryInsights(a, checkpointDate).value == r;
  }

  /** The two middle insights: the tempo band with the checkpoint date, and
      the vibe's label and headline. */
  lemma InsightsTempoAndVibe(a: SurveyAnswers, checkpointDate: string)
    requires VibeMeta(a).Some?
    ensures var r := SummaryInsights(a, checkpointDate).value;
      && r[1].title == TimelineLabel(TimelineValue(a))
      && r[1].detail == "Plan for first win by " + checkpointDate + ". Keep weekly demos to prove traction."
      && r[2] == Insight(VibeMeta(a).value.caption, VibeMeta(a).value.headline, "Experience")
  {
  }

  // ---- Roadmap ----

  datatype RoadmapEntry = RoadmapEntry(title: string, description: string, indicator: string)

  const ReadoutText := "Publish a mini post-launch readout with metrics & learnings."

  /** `roadmap`: builds its list with `push` — a "Week 1" entry for the first
      known focus when there is one, a "Week 2" entry for the vibe, and a final
      entry due by the checkpoint date. `None` when the vibe has no copy entry. */
  method Roadmap(a: SurveyAnswers, checkpointDate: string) returns (r: Option<seq<RoadmapEntry>>)
    ensures r.Some? <==> VibeMeta(a).Some?
    ensures r.Some? ==> |r.value| == (if FocusMeta(FocusSelections(a)) != [] then 3 else 2)
    ensures r.Some? ==> (r.value[0].indicator == "Week 1" <==> FocusMeta(FocusSelections(a)) != [])
    ensures r.Some? && FocusMeta(FocusSelections(a)) != [] ==>
      var first := FocusMeta(FocusSelections(a))[0];
      r.value[0] == RoadmapEntry("Zero in on " + ToLower(first.caption), first.payoff, "Week 1")
    ensures r.Some? ==> (r.value[|r.value| - 2] ==
      RoadmapEntry("Co-create the signature experience", VibeMeta(a).value.headline, "Week 2"))
    ensures r.Some? ==> (r.value[|r.value| - 1] ==
      RoadmapEntry("Ship the proof and recap the signal", ReadoutText, "By " + checkpointDate))
  {
    var focusMeta := FocusMeta(FocusSelections(a));
    var vibeMeta := VibeMeta(a);
    var steps: seq<RoadmapEntry> := [];
    if |focusMeta| > 0 {
      steps := steps + [RoadmapEntry("Zero in on " + ToLower(focusMeta[0].caption), focusMeta[0].payoff, "Week 1")];
    }
    if vibeMeta.None? {
      return None;
    }
    steps := steps + [RoadmapEntry("Co-create the signature experience", vibeMeta.value.headline, "Week 2")];
    steps := steps + [RoadmapEntry("Ship the proof and recap the signal", ReadoutText, "By " + checkpointDate)];
    r := Some(steps);
  }

  // ---- When the copy lookups succeed ----

  /** Every single-choice answer is empty or a value its step offers: what the
      page's option buttons can store. */
  predicate ChoicesValid(a: SurveyAnswers)
  {
    forall i :: (0 <= i < |SurveySteps| && SurveySteps[i].kind.Single? && SurveySteps[i].id in a
      && a[SurveySteps[i].id].Str?) ==>
      a[SurveySteps[i].id].text == "" || a[SurveySteps[i].id].text in OptionValues(SurveySteps[i])
  }

  /** With valid choices the role and vibe lookups never come back `undefined`,
      so the insights and the roadmap exist. */
  lemma ValidChoicesResolveCopy(a: SurveyAnswers, checkpointDate: string)
    requires ChoicesValid(a)
    ensures RoleMeta(a).Some? && VibeMeta(a).Some?
    ensures SummaryInsights(a, checkpointDate).Some?
  {
    SurveyStepsShape();
    RoleCopyCovers();
    VibeCopyCovers();
    FocusCopyCovers();
    assert "founder" in RoleCopy && "premium" in VibeCopy;
    assert SurveySteps[0].id == "role" && SurveySteps[1].id == "vibe";
  }

  lemma InitialChoicesValid()
    ensures ChoicesValid(InitialAnswers())
  {
    InitialAnswersValues();
    SurveyStepsShape();
  }

  /** Choosing one of a single-choice step's own options keeps the choices valid. */
  lemma SingleSelectedKeepsChoicesValid(a: SurveyAnswers, i: int, v: string)
    requires ChoicesValid(a)
    requires 0 <= i < |SurveySteps| && SurveySteps[i].kind.Single? && v in OptionValues(SurveySteps[i])
    ensures ChoicesValid(SingleSelected(a, SurveySteps[i].id, v))
  {
    SurveyStepsShape();
    var r := SingleSelected(a, SurveySteps[i].id, v);
    forall j | 0 <= j < |SurveySteps| && SurveySteps[j].kind.Single? && SurveySteps[j].id in r
      && r[SurveySteps[j].id].Str?
      ensures r[SurveySteps[j].id].text == "" || r[SurveySteps[j].id].text in OptionValues(SurveySteps[j])
    {
      if j != i {
        assert SurveySteps[j].id != SurveySteps[i].id;
      }
    }
  }

  /** Writing the key of a step that is not single-choice (focus, timeline,
      vision) keeps the choices valid. */
  lemma OtherUpdateKeepsChoicesValid(a: SurveyAnswers, id: string, x: Answer)
    requires ChoicesValid(a)
    requires forall i :: 0 <= i < |SurveySteps| && SurveySteps[i].kind.Single? ==> SurveySteps[i].id != id
    ensures ChoicesValid(a[id := x])
  {
  }

  // ---- Worked scenarios ----

  /** The answers of a fast scenario: founder, experimental,
      focus on AI and activation, a three-week timeline. */
  function FastExperimentalAnswers(): SurveyAnswers
  {
    map["role" := Str("founder"), "vibe" := Str("experimental"),
        "focus" := List(["ai-layer", "activation"]), "timeline" := Num(3),
        "vision" := Str("Ship an AI copilot")]
  }

  /** In that scenario the raw score is about 108.9, so the score is clamped
      to 97; the tempo is "Lightning launch" and the checkpoint 21 days out. */
  lemma FastExperimentalScenario()
    ensures MomentumScore(FastExperimentalAnswers()) == 97
    ensures TimelineLabel(TimelineValue(FastExperimentalAnswers())) == "Lightning launch"
    ensures CheckpointOffsetDays(TimelineValue(FastExperimentalAnswers())) == 21
  {
    var a := FastExperimentalAnswers();
    assert TimelineValue(a) == 3;
    assert |FocusSelections(a)| == 2;
    assert VibeSelection(a) == "experimental";
    assert RoundDiv(1198, 11) == 109 by { RoundDivUnique(1198, 11, 109); }
  }

  /** The vision statement of that scenario is its text, which has nothing to trim. */
  lemma FastExperimentalVision()
    ensures VisionStatement(FastExperimentalAnswers()) == "Ship an AI copilot"
  {
    var a := FastExperimentalAnswers();
    var v := "Ship an AI copilot";
    assert a["vision"] == Str(v);
    assert !IsWhitespace(v[0]) && !IsWhitespace(v[|v| - 1]);
    assert TrimStart(v) == v;
    assert TrimEnd(v) == v;
  }

  /** Minimal vibe, no focus, a twelve-week timeline: the raw score is exactly
      64, and the tempo is "Long-term evolution". */
  lemma SlowMinimalScenario()
    ensures var a := map["vibe" := Str("minimal"), "focus" := List([]), "timeline" := Num(12)];
      && MomentumScore(a) == 64
      && TimelineLabel(TimelineValue(a)) == "Long-term evolution"
  {
    var a := map["vibe" := Str("minimal"), "focus" := List([]), "timeline" := Num(12)];
    assert FocusSelections(a) == [];
    assert VibeSelection(a) == "minimal";
    RoundDivWhole(64, 11);
  }

  /** Premium vibe, no focus, a twelve-week timeline: the raw score is exactly
      32 + 20 + 16 = 68, inside the clamp, so the premium weight shows. */
  lemma SlowPremiumScenario()
    ensures var a := map["vibe" := Str("premium"), "focus" := List([]), "timeline" := Num(12)];
      MomentumScore(a) == 68
  {
    var a := map["vibe" := Str("premium"), "focus" := List([]), "timeline" := Num(12)];
    assert FocusSelections(a) == [];
    assert VibeSelection(a) == "premium";
    RoundDivWhole(68, 11);
  }
}
