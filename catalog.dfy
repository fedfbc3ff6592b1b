/** The step catalog: the fixed, ordered list of survey steps and the
    constant copy tables the summary reads its text from. */
module Catalog {
  import opened Optional

  /** One selectable answer of a single- or multi-choice step (the TypeScript
      `Option` type): the stored value and the optional badge. The caption and
      description shown with it are presentation copy, kept in `ChoiceTexts`. */
  datatype Choice = Choice(value: string, badge: Option<string>)

  /** What kind of question a step asks, with the fields of that kind.
      Single- and multi-choice steps share one shape, as in the source,
      where `limit` is optional and only read for multi-choice steps. */
  datatype StepKind =
    | Single(options: seq<Choice>, limit: Option<int>)
    | Multi(options: seq<Choice>, limit: Option<int>)
    | Scale(min: int, max: int, stepSize: int, suffix: Option<string>,
            defaultValue: Option<int>, markers: seq<int>)
    | Text(placeholder: string, helper: string, rows: Option<int>)

  /** A survey step: its id and its kind. Its title and description are
      presentation copy, kept in `StepTexts`. */
  datatype Step = Step(id: string, kind: StepKind)

  /** The caption (`label`) and optional description of an option. */
  datatype ChoiceText = ChoiceText(caption: string, description: Option<string>)

  /** The title and description of a step. */
  datatype StepText = StepText(title: string, description: string)

  /** The `type` tag of a step. */
  function KindName(k: StepKind): (r: string)
    ensures r in {"single", "multi", "scale", "text"}
  {
    match k
    case Single(_, _) => "single"
    case Multi(_, _) => "multi"
    case Scale(_, _, _, _, _, _) => "scale"
    case Text(_, _, _) => "text"
  }

  const RoleOptions: seq<Choice> := [
    Choice("founder", Some("Most picked")),
    Choice("product-lead", None),
    Choice("marketing", None),
    Choice("other", None)
  ]

  const VibeOptions: seq<Choice> := [
    Choice("premium", Some("Credibility boost")),
    Choice("playful", None),
    Choice("experimental", None),
    Choice("minimal", None)
  ]

  const FocusOptions: seq<Choice> := [
    Choice("product-foundations", None),
    Choice("activation", None),
    Choice("conversion", None),
    Choice("design-system", None),
    Choice("ai-layer", None),
    Choice("story", None)
  ]

  /** `surveySteps`: the five steps, in order. */
  const SurveySteps: seq<Step> := [
    Step("role", Single(RoleOptions, None)),
    Step("vibe", Single(VibeOptions, None)),
    Step("focus", Multi(FocusOptions, Some(3))),
    Step("timeline", Scale(1, 12, 1, Some(" weeks"), Some(6), [1, 4, 8, 12])),
    Step("vision", Text(
      "Launch an AI copilot that nails onboarding so teams feel productive in minutes...",
      "Keep it crisp - 1 to 2 sentences is perfect.", Some(4)))
  ]

  /** The titles and descriptions of the steps, by step id. */
  const StepTexts: map<string, StepText> := map[
    "role" := StepText("Who are we teaming up with?",
      "Anchor the squad around your perspective so the plan speaks your language."),
    "vibe" := StepText("What energy should the experience radiate?",
      "Pick the emotional signature that your users should feel at every touchpoint."),
    "focus" := StepText("Where should momentum concentrate?",
      "Select up to three arenas where a focused push moves the needle most."),
    "timeline" := StepText("How fast should signal appear?",
      "Slide to calibrate urgency. 1 = lightning sprint, 12 = steady orchestration."),
    "vision" := StepText("Paint the win in a sentence or two",
      "Drop a headline the team can rally around. We'll remix it into a launch brief.")
  ]

  /** The captions and descriptions of the options, by option value (the
      values of all choice steps are distinct from each other). */
  const ChoiceTexts: map<string, ChoiceText> := map[
    "founder" := ChoiceText("Founding Team",
      Some("Orchestrating product, GTM, and capital at the same time.")),
    "product-lead" := ChoiceText("Product / Design Lead",
      Some("Aligning stakeholders while shipping a cohesive experience.")),
    "marketing" := ChoiceText("Marketing / Growth",
      Some("Crafting narratives that convert and loop into retention.")),
    "other" := ChoiceText("Operator / Advisor",
      Some("Partnering to unlock a precise slice of momentum.")),
    "premium" := ChoiceText("Polished & Premium",
      Some("Cinematic visuals, high-trust interactions, detail-obsessed.")),
    "playful" := ChoiceText("Playful Momentum",
      Some("Delightful micro-interactions with a confident brand voice.")),
    "experimental" := ChoiceText("Experimental & Bold",
      Some("Future-forward patterns that feel new yet intuitive.")),
    "minimal" := ChoiceText("Calm & Minimal",
      Some("Intentional whitespace, clarity, and effortless onboarding.")),
    "product-foundations" := ChoiceText("Product Foundations",
      Some("Clarify the IA, flows, and core UX narrative.")),
    "activation" := ChoiceText("Activation & Onboarding",
      Some("Get newcomers to the magic moment fast and friction-free.")),
    "conversion" := ChoiceText("Conversion Engine",
      Some("Tighten landing pages, pricing, and in-product upsell loops.")),
    "design-system" := ChoiceText("Design System",
      Some("Align components, tokens, and cross-platform consistency.")),
    "ai-layer" := ChoiceText("AI Differentiation",
      Some("Ship a signature intelligent moment that feels inevitable.")),
    "story" := ChoiceText("Story & Narrative",
      Some("Craft the storyline investors, recruits, and customers repeat."))
  ]

  /** The values a list of choices offers. */
  function ChoiceValues(options: seq<Choice>): (r: set<string>)
    ensures forall c :: c in options ==> c.value in r
    ensures forall v :: v in r ==> exists c :: c in options && c.value == v
  {
    set c | c in options :: c.value
  }

  /** The values a choice step offers (empty for the other kinds). */
  function OptionValues(step: Step): (r: set<string>)
  {
    match step.kind
    case Single(options, _) => ChoiceValues(options)
    case Multi(options, _) => ChoiceValues(options)
    case _ => {}
  }

  /** The shape every step of this catalog has: a multi-choice limit
      is at least 1, a scale has `min < max` and a positive step, and the
      options of a choice step carry distinct values. */
  predicate StepShaped(step: Step)
  {
    match step.kind
    case Single(options, _) => DistinctValues(options)
    case Multi(options, limit) => DistinctValues(options) && (limit.Some? ==> limit.value >= 1)
    case Scale(min, max, stepSize, _, _, _) => min < max && stepSize > 0
    case Text(_, _, _) => true
  }

  predicate DistinctValues(options: seq<Choice>)
  {
    forall i, j :: 0 <= i < j < |options| ==> options[i].value != options[j].value
  }

  /** Step ids are unique within the catalog. */
  predicate UniqueIds(steps: seq<Step>)
  {
    forall i, j :: 0 <= i < j < |steps| ==> steps[i].id != steps[j].id
  }

  /** The catalog: five steps in the order role, vibe, focus, timeline, vision,
      of kinds single, single, multi (limit 3), scale (1 to 12, default 6) and
      text; ids unique and every step well shaped. */
  lemma SurveyStepsShape()
    ensures |SurveySteps| == 5
    ensures SurveySteps[0].id == "role" && SurveySteps[0].kind.Single?
    ensures SurveySteps[1].id == "vibe" && SurveySteps[1].kind.Single?
    ensures SurveySteps[2].id == "focus" && SurveySteps[2].kind.Multi?
    ensures SurveySteps[2].kind.limit == Some(3)
    ensures SurveySteps[3].id == "timeline" && SurveySteps[3].kind.Scale?
    ensures SurveySteps[3].kind.min == 1 && SurveySteps[3].kind.max == 12
    ensures SurveySteps[3].kind.defaultValue == Some(6)
    ensures SurveySteps[4].id == "vision" && SurveySteps[4].kind.Text?
    ensures UniqueIds(SurveySteps)
    ensures forall i :: 0 <= i < |SurveySteps| ==> StepShaped(SurveySteps[i])
  {
  }

  /** `findStepById`: the first step with the given id and kind tag, if any. */
  function FindStepById(steps: seq<Step>, id: string, kind: string): (r: Option<Step>)
    ensures r.Some? ==> r.value in steps && r.value.id == id && KindName(r.value.kind) == kind
    ensures r.None? <==> forall i :: 0 <= i < |steps| ==> !(steps[i].id == id && KindName(steps[i].kind) == kind)
    ensures forall i :: 0 <= i < |steps| && steps[i].id == id && KindName(steps[i].kind) == kind ==>
      r.Some? && (r.value == steps[i] || exists j :: 0 <= j < i && steps[j] == r.value)
  {
    if steps == [] then None
    else if steps[0].id == id && KindName(steps[0].kind) == kind then Some(steps[0])
    else
      var rest := FindStepById(steps[1..], id, kind);
      assert forall i :: 1 <= i < |steps| ==> steps[i] == steps[1..][i - 1];
      rest
  }

  /** The module-level `timelineStep`. */
  function TimelineStep(): (r: Option<Step>)
    ensures r == Some(SurveySteps[3])
  {
    assert SurveySteps[3].id == "timeline" && KindName(SurveySteps[3].kind) == "scale";
    assert UniqueIds(SurveySteps);
    FindStepById(SurveySteps, "timeline", "scale")
  }

  // ---- Copy tables (constant maps keyed by option value) ----

  datatype RoleEntry = RoleEntry(caption: string, blurb: string)
  datatype VibeEntry = VibeEntry(caption: string, headline: string)
  datatype FocusEntry = FocusEntry(caption: string, payoff: string, signal: string)

  const RoleCopy: map<string, RoleEntry> := map[
    "founder" := RoleEntry("Founding team",
      "needs cross-functional velocity without sacrificing craft."),
    "product-lead" := RoleEntry("Product or design lead",
      "wants alignment, momentum, and a clear creative brief."),
    "marketing" := RoleEntry("Growth storyteller",
      "is optimizing narrative, assets, and conversion loops."),
    "other" := RoleEntry("Operator / advisor",
      "is guiding a sharp strike to unblock the next inflection.")
  ]

  const VibeCopy: map<string, VibeEntry> := map[
    "premium" := VibeEntry("Polished & Premium",
      "Make the experience feel inevitable and high-trust."),
    "playful" := VibeEntry("Playful Momentum",
      "Inject delightful beats that energize each interaction."),
    "experimental" := VibeEntry("Experimental & Bold",
      "Prototype the future-forward moments competitors copy later."),
    "minimal" := VibeEntry("Calm & Minimal",
      "Strip friction and elevate clarity so the value story lands instantly.")
  ]

  const FocusCopy: map<string, FocusEntry> := map[
    "product-foundations" := FocusEntry("Product foundations",
      "Teams gain a crisp blueprint for where the product is heading next.",
      "Stronger decision velocity across design, eng, and ops."),
    "activation" := FocusEntry("Activation & onboarding",
      "New users experience the magic moment in a single sitting.",
      "Activation lift and lower support load."),
    "conversion" := FocusEntry("Conversion engine",
      "Narrative, pricing, and flows align to move prospects to yes.",
      "Improved trial-to-paid and healthier revenue mix."),
    "design-system" := FocusEntry("Design system",
      "Components sync across surfaces so shipping feels modular.",
      "Faster iteration with fewer regressions."),
    "ai-layer" := FocusEntry("AI differentiation",
      "Signature intelligence moments that feel both helpful and magical.",
      "Higher retention and share-worthy product moments."),
    "story" := FocusEntry("Story & narrative",
      "Every touchpoint reinforces the same memorable promise.",
      "Resonant pitch for investors, candidates, and customers.")
  ]

  /** A table that has an entry for every option of `options` has one for
      every value `ChoiceValues(options)` collects. */
  lemma ValuesCovered<T>(options: seq<Choice>, table: map<string, T>)
    requires forall i :: 0 <= i < |options| ==> options[i].value in table
    ensures forall v :: v in ChoiceValues(options) ==> v in table
  {
    forall v | v in ChoiceValues(options) ensures v in table {
      var c :| c in options && c.value == v;
      var i :| 0 <= i < |options| && options[i] == c;
    }
  }

  /** Every role option has an entry in `roleCopy`. */
  lemma RoleCopyCovers()
    ensures forall v :: v in OptionValues(SurveySteps[0]) ==> v in RoleCopy
  {
    forall i | 0 <= i < |RoleOptions| ensures RoleOptions[i].value in RoleCopy {}
    ValuesCovered(RoleOptions, RoleCopy);
    assert SurveySteps[0].kind.options == RoleOptions;
  }

  /** Every vibe option has an entry in `vibeCopy`. */
  lemma VibeCopyCovers()
    ensures forall v :: v in OptionValues(SurveySteps[1]) ==> v in VibeCopy
  {
    forall i | 0 <= i < |VibeOptions| ensures VibeOptions[i].value in VibeCopy {}
    ValuesCovered(VibeOptions, VibeCopy);
    assert SurveySteps[1].kind.options == VibeOptions;
  }

  /** Every focus option has an entry in `focusCopy`. */
  lemma FocusCopyCovers()
    ensures forall v :: v in OptionValues(SurveySteps[2]) ==> v in FocusCopy
  {
    forall i | 0 <= i < |FocusOptions| ensures FocusOptions[i].value in FocusCopy {}
    ValuesCovered(FocusOptions, FocusCopy);
    assert SurveySteps[2].kind.options == FocusOptions;
  }

  /** Every step has a title and a description. */
  lemma StepTextsCover()
    ensures forall i :: 0 <= i < |SurveySteps| ==> SurveySteps[i].id in StepTexts
  {
  }
}
