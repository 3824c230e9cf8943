/**
 * The rule-based pricing engine (`computeRuleEstimate` in lib/estimation.ts).
 *
 * Money is whole US dollars and kept exact. Hours are kept in tenths, so the
 * per-page 2.2 hours is 22 tenths and every hour term is an integer. Every
 * `Math.round(x * m)` of the source has x >= 0 and becomes `RoundRatio`, the
 * nearest integer with halves rounded up, which is what `Math.round` does.
 * The complexity step meets no half (see `ComplexityStepIsExact`), nor do
 * the range factors 0.88 and 1.12 and the two hour roundings (see the notes at
 * `Estimate`). The factors 1.25, 0.75 and 1.1 do meet exact halves (702 * 1.25
 * is 877.5), but 1.25 and 0.75 are exact in binary and the double nearest 1.1
 * lies above 1.1, so their IEEE products never fall below the half. The one
 * caveat is the flexible-timeline factor 0.95, whose nearest double lies
 * below it: at an exact half (a running base ending in 10 modulo 20) the IEEE
 * product can fall just below the half for large bases and round down where
 * the exact arithmetic here rounds up.
 */
module Estimation {
  import opened Wrappers
  import opened Strings
  import opened Numerals

  datatype Complexity = Low | Medium | High
  datatype AiFeatures = NoAi | BasicAi | AdvancedAi
  datatype Timeline = Flexible | Normal | Rushed

  /** The string each enumerated value has in the form and in request bodies. */
  function ComplexityName(c: Complexity): string {
    match c
    case Low => "low"
    case Medium => "medium"
    case High => "high"
  }

  function AiFeaturesName(a: AiFeatures): string {
    match a
    case NoAi => "none"
    case BasicAi => "basic"
    case AdvancedAi => "advanced"
  }

  function TimelineName(t: Timeline): string {
    match t
    case Flexible => "flexible"
    case Normal => "normal"
    case Rushed => "rushed"
  }

  /** Reads an enumerated value back from its string; `None` for any other string. */
  function ParseComplexity(s: string): (r: Option<Complexity>)
    ensures r.Some? <==> s in {"low", "medium", "high"}
    ensures r.Some? ==> ComplexityName(r.value) == s
  {
    if s == "low" then Some(Low)
    else if s == "medium" then Some(Medium)
    else if s == "high" then Some(High)
    else None
  }

  function ParseAiFeatures(s: string): (r: Option<AiFeatures>)
    ensures r.Some? <==> s in {"none", "basic", "advanced"}
    ensures r.Some? ==> AiFeaturesName(r.value) == s
  {
    if s == "none" then Some(NoAi)
    else if s == "basic" then Some(BasicAi)
    else if s == "advanced" then Some(AdvancedAi)
    else None
  }

  function ParseTimeline(s: string): (r: Option<Timeline>)
    ensures r.Some? <==> s in {"flexible", "normal", "rushed"}
    ensures r.Some? ==> TimelineName(r.value) == s
  {
    if s == "flexible" then Some(Flexible)
    else if s == "normal" then Some(Normal)
    else if s == "rushed" then Some(Rushed)
    else None
  }

  lemma EnumNamesRoundTrip(c: Complexity, a: AiFeatures, t: Timeline)
    ensures ParseComplexity(ComplexityName(c)) == Some(c)
    ensures ParseAiFeatures(AiFeaturesName(a)) == Some(a)
    ensures ParseTimeline(TimelineName(t)) == Some(t)
  {
  }

  /** `StructuredFormInput`. */
  datatype StructuredFormInput = StructuredFormInput(
    projectType: string,
    pages: int,
    complexity: Complexity,
    auth: bool,
    adminPanel: bool,
    aiFeatures: AiFeatures,
    timeline: Timeline,
    notes: string)

  /** `EstimateBreakdownItem`; `label` is a Dafny keyword, hence `labelText` (the optional description is never set by the engine). */
  datatype EstimateBreakdownItem = EstimateBreakdownItem(labelText: string, amount: int)

  /** `EstimateResult`. */
  datatype EstimateResult = EstimateResult(
    min: int,
    max: int,
    currency: string,
    hours: int,
    timelineWeeks: int,
    breakdown: seq<EstimateBreakdownItem>,
    assumptions: seq<string>,
    suggestions: seq<string>)

  const Currency := "USD"

  // ---------------------------------------------------------------- tables

  /** One row of the project-type table: base price and base hours. */
  datatype TypeRate = TypeRate(base: nat, hours: nat)

  const TypeBaseMap: map<string, TypeRate> := map[
    "landing" := TypeRate(600, 12),
    "script" := TypeRate(400, 8),
    "web-app" := TypeRate(1500, 30),
    "mobile" := TypeRate(1800, 36),
    "default" := TypeRate(1000, 20)]

  const KnownTypes: set<string> := {"landing", "script", "web-app", "mobile"}

  /** `typeBaseMap[projectType] || typeBaseMap.default`: never fails. */
  function TypeEntry(projectType: string): (e: TypeRate)
    ensures projectType in KnownTypes ==> e == TypeBaseMap[projectType]
    ensures projectType !in KnownTypes ==> e == TypeRate(1000, 20)
    ensures 400 <= e.base && e.base % 100 == 0 && 10 * e.hours == e.base / 5
  {
    if projectType in TypeBaseMap then TypeBaseMap[projectType] else TypeBaseMap["default"]
  }

  const IncludedPages := 3
  const PerPage := 120
  const PerPageHoursTenths := 22
  const HoursPerWeek := 15

  const AuthAmount := 400
  const AuthHoursTenths := 80
  const AdminAmount := 600
  const AdminHoursTenths := 120
  const BasicAiAmount := 500
  const BasicAiHoursTenths := 100
  const AdvancedAiAmount := 1200
  const AdvancedAiHoursTenths := 240

  /** The complexity multiplier in percent: 1, 1.35, 1.75. */
  function ComplexityPercent(c: Complexity): nat {
    match c
    case Low => 100
    case Medium => 135
    case High => 175
  }

  /** The timeline multiplier in percent: 1.25 rushed, 0.95 flexible, otherwise 1. */
  function TimelinePercent(t: Timeline): nat {
    if t == Rushed then 125 else if t == Flexible then 95 else 100
  }

  const RangeLowPercent := 88
  const RangeHighPercent := 112
  const RushedWeeksPercent := 75
  const FlexibleWeeksPercent := 110

  // ------------------------------------------------------------- rounding

  /** `Math.round(num / den)` for `num >= 0`: the nearest integer, a half rounded up. */
  function RoundRatio(num: nat, den: nat): (r: nat)
    requires den > 0
    ensures 2 * den * r <= 2 * num + den < 2 * den * r + 2 * den
  {
    (2 * num + den) / (2 * den)
  }

  /** `Math.round(x * pct / 100)`. */
  function ScalePercent(x: nat, pct: nat): nat {
    RoundRatio(x * pct, 100)
  }

  function Max(a: int, b: int): int {
    if a >= b then a else b
  }

  // ------------------------------------------------ closed-form estimate

  /** `Math.max(0, pages - 3)`: pages beyond the three included ones. */
  function ExtraPages(input: StructuredFormInput): nat {
    if input.pages - IncludedPages > 0 then input.pages - IncludedPages else 0
  }

  function AiAmount(a: AiFeatures): nat {
    match a
    case NoAi => 0
    case BasicAi => BasicAiAmount
    case AdvancedAi => AdvancedAiAmount
  }

  function AiHoursTenths(a: AiFeatures): nat {
    match a
    case NoAi => 0
    case BasicAi => BasicAiHoursTenths
    case AdvancedAi => AdvancedAiHoursTenths
  }

  /** The flat add-ons: authentication, admin panel and the AI tier. */
  function FeatureAmount(input: StructuredFormInput): nat {
    (if input.auth then AuthAmount else 0) + (if input.adminPanel then AdminAmount else 0)
    + AiAmount(input.aiFeatures)
  }

  function FeatureHoursTenths(input: StructuredFormInput): nat {
    (if input.auth then AuthHoursTenths else 0) + (if input.adminPanel then AdminHoursTenths else 0)
    + AiHoursTenths(input.aiFeatures)
  }

  /** Price before the complexity multiplier: type base, extra pages and flat add-ons. */
  function Subtotal(input: StructuredFormInput): nat {
    TypeEntry(input.projectType).base + PerPage * ExtraPages(input) + FeatureAmount(input)
  }

  function AfterComplexity(input: StructuredFormInput): nat {
    ScalePercent(Subtotal(input), ComplexityPercent(input.complexity))
  }

  /** The final running base, from which the range is taken. */
  function FinalBase(input: StructuredFormInput): nat {
    ScalePercent(AfterComplexity(input), TimelinePercent(input.timeline))
  }

  function ComplexityDelta(input: StructuredFormInput): int {
    AfterComplexity(input) - Subtotal(input)
  }

  function TimelineDelta(input: StructuredFormInput): int {
    FinalBase(input) - AfterComplexity(input)
  }

  /** Unrounded effort in tenths of an hour. Every term is even. */
  function HoursTenths(input: StructuredFormInput): nat {
    10 * TypeEntry(input.projectType).hours + PerPageHoursTenths * ExtraPages(input)
    + FeatureHoursTenths(input)
  }

  /** `Math.round(hours / 15)` on the unrounded hours. */
  function BaseWeeks(input: StructuredFormInput): nat {
    RoundRatio(HoursTenths(input), 10 * HoursPerWeek)
  }

  function AdjustWeeks(t: Timeline, weeks: nat): nat {
    match t
    case Rushed => Max(1, ScalePercent(weeks, RushedWeeksPercent))
    case Flexible => ScalePercent(weeks, FlexibleWeeksPercent)
    case Normal => weeks
  }

  /** A one-element sequence when `cond` holds, the empty one otherwise. */
  function When<T>(cond: bool, x: T): seq<T> {
    if cond then [x] else []
  }

  function BaseLabel(projectType: string): string {
    "Base (" + projectType + ")"
  }

  function PagesLabel(extraPages: nat): string {
    "Additional Pages (" + NatToString(extraPages) + ")"
  }

  function ComplexityLabel(c: Complexity): string {
    "Complexity uplift (" + ComplexityName(c) + ")"
  }

  const TimelineLabel := "Timeline adjustment"

  function FeatureLines(input: StructuredFormInput): seq<EstimateBreakdownItem> {
    When(input.auth, EstimateBreakdownItem("Authentication", AuthAmount))
    + When(input.adminPanel, EstimateBreakdownItem("Admin Panel", AdminAmount))
    + When(input.aiFeatures == BasicAi, EstimateBreakdownItem("Basic AI Features", BasicAiAmount))
    + When(input.aiFeatures == AdvancedAi, EstimateBreakdownItem("Advanced AI Features", AdvancedAiAmount))
  }

  function BaseLines(input: StructuredFormInput): seq<EstimateBreakdownItem> {
    [EstimateBreakdownItem(BaseLabel(input.projectType), TypeEntry(input.projectType).base)]
  }

  function PagesLines(input: StructuredFormInput): seq<EstimateBreakdownItem> {
    When(input.pages > 0, EstimateBreakdownItem(PagesLabel(ExtraPages(input)), PerPage * ExtraPages(input)))
  }

  function ComplexityLines(input: StructuredFormInput): seq<EstimateBreakdownItem> {
    When(ComplexityDelta(input) != 0, EstimateBreakdownItem(ComplexityLabel(input.complexity), ComplexityDelta(input)))
  }

  function TimelineLines(input: StructuredFormInput): seq<EstimateBreakdownItem> {
    When(TimelinePercent(input.timeline) != 100, EstimateBreakdownItem(TimelineLabel, TimelineDelta(input)))
  }

  /** The ledger: one line per price step, in computation order. */
  function Breakdown(input: StructuredFormInput): seq<EstimateBreakdownItem> {
    BaseLines(input) + PagesLines(input) + FeatureLines(input) + ComplexityLines(input) + TimelineLines(input)
  }

  const BaselineAssumptions: seq<string> := [
    "Includes responsive UI and basic accessibility best practices",
    "One design iteration per page/screen included",
    "Content copy provided by client"]
  const AdminAssumption := "Admin panel includes CRUD, basic role management"
  const AiAssumption := "AI feature cost assumes using hosted API (e.g. OpenAI) billed separately"

  function Assumptions(input: StructuredFormInput): seq<string> {
    BaselineAssumptions + When(input.adminPanel, AdminAssumption) + When(input.aiFeatures != NoAi, AiAssumption)
  }

  const AuthSuggestion := "Add authentication later to reduce initial scope"
  const PhasingSuggestion := "Consider phased delivery splitting pages into milestones"
  const TimelineSuggestion := "Extending the timeline could reduce cost by ~20%"

  function Suggestions(input: StructuredFormInput): seq<string> {
    When(!input.auth, AuthSuggestion) + When(input.pages > 10, PhasingSuggestion)
    + When(input.timeline == Rushed, TimelineSuggestion)
  }

  /**
   * The estimate as a whole. Hours are `Math.round(hours)`; since every term
   * of the tenths is even, neither that rounding nor `Math.round(hours / 15)`
   * meets an exact half, and the range factors 0.88 and 1.12 cannot either
   * (88 * base and 112 * base are never 50 modulo 100).
   */
  function Estimate(input: StructuredFormInput): EstimateResult {
    EstimateResult(
      ScalePercent(FinalBase(input), RangeLowPercent),
      ScalePercent(FinalBase(input), RangeHighPercent),
      Currency,
      RoundRatio(HoursTenths(input), 10),
      AdjustWeeks(input.timeline, BaseWeeks(input)),
      Breakdown(input),
      Assumptions(input),
      Suggestions(input))
  }

  /** Sum of the line amounts, in order. */
  function LedgerTotal(items: seq<EstimateBreakdownItem>): int {
    if items == [] then 0 else LedgerTotal(items[..|items| - 1]) + items[|items| - 1].amount
  }

  // ------------------------------------------------------------ the engine

  /** `computeRuleEstimate`: builds the estimate step by step, as the source does. */
  /** Type base and extra pages: the first two blocks of `computeRuleEstimate`. */
  method PriceScope(input: StructuredFormInput) returns (base: nat, hoursTenths: nat, breakdown: seq<EstimateBreakdownItem>)
    ensures base == TypeEntry(input.projectType).base + PerPage * ExtraPages(input)
    ensures hoursTenths == 10 * TypeEntry(input.projectType).hours + PerPageHoursTenths * ExtraPages(input)
    ensures breakdown == BaseLines(input) + PagesLines(input)
  {
    breakdown := [];
    base, hoursTenths := 0, 0;
    var typeEntry := TypeEntry(input.projectType);
    base := base + typeEntry.base;
    hoursTenths := hoursTenths + 10 * typeEntry.hours;
    breakdown := breakdown + [EstimateBreakdownItem(BaseLabel(input.projectType), typeEntry.base)];
    if input.pages > 0 {
      var extraPages: nat := Max(0, input.pages - IncludedPages);
      var pagesAmount := extraPages * PerPage;
      var pagesHoursTenths := extraPages * PerPageHoursTenths;
      base := base + pagesAmount;
      hoursTenths := hoursTenths + pagesHoursTenths;
      breakdown := breakdown + [EstimateBreakdownItem(PagesLabel(extraPages), pagesAmount)];
    }
  }

  /** The feature-flag block: each selected add-on adds its price, its hours and one line. */
  method AddFeatures(input: StructuredFormInput, base0: nat, hoursTenths0: nat, breakdown0: seq<EstimateBreakdownItem>)
    returns (base: nat, hoursTenths: nat, breakdown: seq<EstimateBreakdownItem>)
    ensures base == base0 + FeatureAmount(input)
    ensures hoursTenths == hoursTenths0 + FeatureHoursTenths(input)
    ensures breakdown == breakdown0 + FeatureLines(input)
  {
    base, hoursTenths, breakdown := base0, hoursTenths0, breakdown0;
    if input.auth {
      base := base + AuthAmount; hoursTenths := hoursTenths + AuthHoursTenths;
      breakdown := breakdown + [EstimateBreakdownItem("Authentication", AuthAmount)];
    }
    if input.adminPanel {
      base := base + AdminAmount; hoursTenths := hoursTenths + AdminHoursTenths;
      breakdown := breakdown + [EstimateBreakdownItem("Admin Panel", AdminAmount)];
    }
    if input.aiFeatures == BasicAi {
      base := base + BasicAiAmount; hoursTenths := hoursTenths + BasicAiHoursTenths;
      breakdown := breakdown + [EstimateBreakdownItem("Basic AI Features", BasicAiAmount)];
    }
    if input.aiFeatures == AdvancedAi {
      base := base + AdvancedAiAmount; hoursTenths := hoursTenths + AdvancedAiHoursTenths;
      breakdown := breakdown + [EstimateBreakdownItem("Advanced AI Features", AdvancedAiAmount)];
    }
  }

  /** The complexity step: round the scaled subtotal and log the difference when it is not zero. */
  method ApplyComplexity(c: Complexity, base0: nat, breakdown0: seq<EstimateBreakdownItem>)
    returns (base: nat, breakdown: seq<EstimateBreakdownItem>)
    ensures base == ScalePercent(base0, ComplexityPercent(c))
    ensures breakdown == breakdown0 + When(base != base0, EstimateBreakdownItem(ComplexityLabel(c), base - base0))
  {
    var complexityPercent := ComplexityPercent(c);
    var preComplexity := base0;
    base := ScalePercent(base0, complexityPercent);
    var complexityAddition := base - preComplexity;
    breakdown := breakdown0;
    if complexityAddition != 0 {
      breakdown := breakdown + [EstimateBreakdownItem(ComplexityLabel(c), complexityAddition)];
    }
  }

  /** The timeline step: surcharge or discount on the price, then the week adjustment. */
  method ApplyTimeline(t: Timeline, base0: nat, weeks0: nat, breakdown0: seq<EstimateBreakdownItem>)
    returns (base: nat, weeks: nat, breakdown: seq<EstimateBreakdownItem>)
    ensures base == ScalePercent(base0, TimelinePercent(t))
    ensures weeks == AdjustWeeks(t, weeks0)
    ensures breakdown == breakdown0 + When(TimelinePercent(t) != 100, EstimateBreakdownItem(TimelineLabel, base - base0))
  {
    weeks := weeks0;
    var timelinePercent := 100;
    if t == Rushed { timelinePercent := 125; }
    if t == Flexible { timelinePercent := 95; }
    var preTimeline := base0;
    base := ScalePercent(base0, timelinePercent);
    breakdown := breakdown0;
    if timelinePercent != 100 {
      breakdown := breakdown + [EstimateBreakdownItem(TimelineLabel, base - preTimeline)];
    }
    if t == Rushed { weeks := Max(1, ScalePercent(weeks, RushedWeeksPercent)); }
    if t == Flexible { weeks := ScalePercent(weeks, FlexibleWeeksPercent); }
  }

  /**
   * `computeRuleEstimate`, step by step: the running price and hours with the
   * ledger of line items, then the range, assumptions and suggestions. The
   * ledger always adds up to the final price the range is taken from.
   */
  method ComputeRuleEstimate(input: StructuredFormInput) returns (r: EstimateResult)
    ensures r == Estimate(input)
    ensures LedgerTotal(r.breakdown) == FinalBase(input)
    ensures r.min == ScalePercent(LedgerTotal(r.breakdown), RangeLowPercent)
    ensures r.max == ScalePercent(LedgerTotal(r.breakdown), RangeHighPercent)
  {
    var currency := Currency;
    var base, hoursTenths, breakdown := PriceScope(input);
    base, hoursTenths, breakdown := AddFeatures(input, base, hoursTenths, breakdown);
    assert base == Subtotal(input) && hoursTenths == HoursTenths(input);
    base, breakdown := ApplyComplexity(input.complexity, base, breakdown);
    assert base == AfterComplexity(input);
    var timelineWeeks := RoundRatio(hoursTenths, 10 * HoursPerWeek);
    base, timelineWeeks, breakdown := ApplyTimeline(input.timeline, base, timelineWeeks, breakdown);
    assert base == FinalBase(input);
    assert breakdown == Breakdown(input);

    // Range +/- 12%
    var min := ScalePercent(base, RangeLowPercent);
    var max := ScalePercent(base, RangeHighPercent);

    var assumptions := BuildAssumptions(input);
    var suggestions := BuildSuggestions(input);

    r := EstimateResult(min, max, currency, RoundRatio(hoursTenths, 10), timelineWeeks, breakdown, assumptions, suggestions);
    LedgerBalances(input);
  }

  /** The assumptions list of `computeRuleEstimate`: three fixed lines, then the conditional ones. */
  method BuildAssumptions(input: StructuredFormInput) returns (assumptions: seq<string>)
    ensures assumptions == Assumptions(input)
  {
    assumptions := BaselineAssumptions;
    if input.adminPanel { assumptions := assumptions + [AdminAssumption]; }
    if input.aiFeatures != NoAi { assumptions := assumptions + [AiAssumption]; }
  }

  /** The suggestions list of `computeRuleEstimate`; it may stay empty. */
  method BuildSuggestions(input: StructuredFormInput) returns (suggestions: seq<string>)
    ensures suggestions == Suggestions(input)
  {
    suggestions := [];
    if !input.auth { suggestions := suggestions + [AuthSuggestion]; }
    if input.pages > 10 { suggestions := suggestions + [PhasingSuggestion]; }
    if input.timeline == Rushed { suggestions := suggestions + [TimelineSuggestion]; }
  }

  // ---------------------------------------------------------------- lemmas

  lemma {:induction false} LedgerTotalConcat(a: seq<EstimateBreakdownItem>, b: seq<EstimateBreakdownItem>)
    ensures LedgerTotal(a + b) == LedgerTotal(a) + LedgerTotal(b)
    decreases |b|
  {
    if b == [] {
      assert a + b == a;
    } else {
      var b' := b[..|b| - 1];
      assert (a + b)[..|a + b| - 1] == a + b';
      LedgerTotalConcat(a, b');
    }
  }

  lemma ScalePercentIdentity(x: nat)
    ensures ScalePercent(x, 100) == x
  {
  }

  lemma LedgerTotalWhen(cond: bool, item: EstimateBreakdownItem)
    ensures LedgerTotal(When(cond, item)) == if cond then item.amount else 0
  {
    if cond {
      assert When(cond, item)[..0] == [];
    }
  }

  lemma FeatureLinesTotal(input: StructuredFormInput)
    ensures LedgerTotal(FeatureLines(input)) == FeatureAmount(input)
  {
    var f1 := When(input.auth, EstimateBreakdownItem("Authentication", AuthAmount));
    var f2 := When(input.adminPanel, EstimateBreakdownItem("Admin Panel", AdminAmount));
    var f3 := When(input.aiFeatures == BasicAi, EstimateBreakdownItem("Basic AI Features", BasicAiAmount));
    var f4 := When(input.aiFeatures == AdvancedAi, EstimateBreakdownItem("Advanced AI Features", AdvancedAiAmount));
    LedgerTotalWhen(input.auth, EstimateBreakdownItem("Authentication", AuthAmount));
    LedgerTotalWhen(input.adminPanel, EstimateBreakdownItem("Admin Panel", AdminAmount));
    LedgerTotalWhen(input.aiFeatures == BasicAi, EstimateBreakdownItem("Basic AI Features", BasicAiAmount));
    LedgerTotalWhen(input.aiFeatures == AdvancedAi, EstimateBreakdownItem("Advanced AI Features", AdvancedAiAmount));
    LedgerTotalConcat(f1, f2);
    LedgerTotalConcat(f1 + f2, f3);
    LedgerTotalConcat(f1 + f2 + f3, f4);
  }

  /** Ledger: the breakdown amounts add up to the final base. */
  lemma LedgerBalances(input: StructuredFormInput)
    ensures LedgerTotal(Breakdown(input)) == FinalBase(input)
  {
    var b0, b1, b2, b3, b4 := BaseLines(input), PagesLines(input), FeatureLines(input), ComplexityLines(input), TimelineLines(input);
    LedgerTotalConcat(b0, b1);
    LedgerTotalConcat(b0 + b1, b2);
    LedgerTotalConcat(b0 + b1 + b2, b3);
    LedgerTotalConcat(b0 + b1 + b2 + b3, b4);
    assert LedgerTotal(b0) == TypeEntry(input.projectType).base by {
      assert b0[..0] == [];
    }
    LedgerTotalWhen(input.pages > 0, EstimateBreakdownItem(PagesLabel(ExtraPages(input)), PerPage * ExtraPages(input)));
    assert input.pages <= 0 ==> ExtraPages(input) == 0;
    FeatureLinesTotal(input);
    LedgerTotalWhen(ComplexityDelta(input) != 0, EstimateBreakdownItem(ComplexityLabel(input.complexity), ComplexityDelta(input)));
    LedgerTotalWhen(TimelinePercent(input.timeline) != 100, EstimateBreakdownItem(TimelineLabel, TimelineDelta(input)));
    if TimelinePercent(input.timeline) == 100 {
      ScalePercentIdentity(AfterComplexity(input));
    }
  }
}
