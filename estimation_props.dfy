/**
 * Properties of the pricing engine: the ledger and range, the rules for which
 * lines appear, the week adjustment, the assumption and suggestion lists,
 * monotonicity in the scope of the project, and the two worked inputs.
 */
module EstimationProperties {
  import opened Wrappers
  import opened Strings
  import opened Numerals
  import opened Estimation

  // ------------------------------------------------------ rounding facts

  lemma MulMonotone(a: nat, b: nat, k: nat)
    requires a <= b
    ensures a * k <= b * k
  {
  }

  lemma RoundRatioMonotone(a: nat, b: nat, d: nat)
    requires d > 0 && a <= b
    ensures RoundRatio(a, d) <= RoundRatio(b, d)
  {
    var ra, rb := RoundRatio(a, d), RoundRatio(b, d);
    if ra > rb {
      MulMonotone(rb + 1, ra, 2 * d);
    }
  }

  /** A larger amount never rounds to a smaller one. */
  lemma ScalePercentMonotone(x: nat, y: nat, pct: nat)
    requires x <= y
    ensures ScalePercent(x, pct) <= ScalePercent(y, pct)
  {
    MulMonotone(x, y, pct);
    RoundRatioMonotone(x * pct, y * pct, 100);
  }

  /** A larger factor never gives a smaller amount. */
  lemma ScalePercentFactorMonotone(x: nat, p: nat, q: nat)
    requires p <= q
    ensures ScalePercent(x, p) <= ScalePercent(x, q)
  {
    MulMonotone(p, q, x);
    assert x * p == p * x && x * q == q * x;
    RoundRatioMonotone(x * p, x * q, 100);
  }

  /** When the product is a whole number of hundredths, nothing is rounded. */
  lemma ScalePercentExact(x: nat, pct: nat)
    requires (x * pct) % 100 == 0
    ensures 100 * ScalePercent(x, pct) == x * pct
  {
    RoundRatioExact(x * pct);
  }

  /** A whole number of hundredths rounds to itself. */
  lemma RoundRatioExact(n: nat)
    requires n % 100 == 0
    ensures 100 * RoundRatio(n, 100) == n
  {
    var q, r := n / 100, RoundRatio(n, 100);
    assert n == 100 * q;
    assert 200 * r <= 200 * q + 100 < 200 * r + 200;
  }

  /** A factor of at least 1 never lowers an amount, one of at most 1 never raises it. */
  lemma ScalePercentUp(x: nat, pct: nat)
    requires pct >= 100
    ensures ScalePercent(x, pct) >= x
  {
    MulMonotone(100, pct, x);
    assert 100 * x <= x * pct;
  }

  lemma ScalePercentDown(x: nat, pct: nat)
    requires pct <= 100
    ensures ScalePercent(x, pct) <= x
  {
    MulMonotone(pct, 100, x);
    assert x * pct <= 100 * x;
  }

  /** A multiple of 20 scaled by a multiple of 5 percent is a whole number. */
  lemma ScaleMultipleOf20(s: nat, p: nat)
    requires s % 20 == 0 && p % 5 == 0
    ensures 100 * ScalePercent(s, p) == s * p
  {
    var m, q := s / 20, p / 5;
    assert s * p == 100 * (m * q) by {
      assert s == 20 * m && p == 5 * q;
    }
    ScalePercentExact(s, p);
  }

  /** The +/-12% range around a price of at least 5 brackets it strictly. */
  lemma RangeAround(f: nat)
    requires f >= 5
    ensures ScalePercent(f, RangeLowPercent) <= f <= ScalePercent(f, RangeHighPercent)
    ensures ScalePercent(f, RangeLowPercent) < ScalePercent(f, RangeHighPercent)
  {
    ScalePercentDown(f, RangeLowPercent);
    ScalePercentUp(f, RangeHighPercent);
  }

  // ------------------------------------------------------ ledger and range

  /** Every price step before the complexity factor is a multiple of 20. */
  lemma SubtotalMultipleOf20(input: StructuredFormInput)
    ensures Subtotal(input) % 20 == 0
    ensures Subtotal(input) >= 400
  {
    var e := TypeEntry(input.projectType);
    var n := ExtraPages(input);
    assert PerPage * n == 20 * (6 * n);
    assert FeatureAmount(input) % 100 == 0;
  }

  /**
   * The 1.35 and 1.75 factors meet no rounding at all: the subtotal is a
   * multiple of 20, so the scaled value is a whole number.
   */
  lemma ComplexityStepIsExact(input: StructuredFormInput)
    ensures 100 * AfterComplexity(input) == ComplexityPercent(input.complexity) * Subtotal(input)
    ensures ComplexityDelta(input) * 100 == (ComplexityPercent(input.complexity) - 100) * Subtotal(input)
  {
    SubtotalMultipleOf20(input);
    var s, p := Subtotal(input), ComplexityPercent(input.complexity);
    ScaleMultipleOf20(s, p);
    assert (p - 100) * s == p * s - 100 * s;
  }

  /** Every final price is at least 380 (the cheapest type, flexible). */
  lemma FinalBaseAtLeast380(input: StructuredFormInput)
    ensures AfterComplexity(input) >= Subtotal(input) >= 400
    ensures FinalBase(input) >= 380
  {
    SubtotalMultipleOf20(input);
    var s := Subtotal(input);
    ScalePercentUp(s, ComplexityPercent(input.complexity));
    var a := AfterComplexity(input);
    ScalePercentFactorMonotone(a, 95, TimelinePercent(input.timeline));
    ScalePercentMonotone(400, a, 95);
    assert ScalePercent(400, 95) == 380;
  }

  /** The range brackets the final price: `min <= base <= max`, and min < max. */
  lemma RangeBrackets(input: StructuredFormInput)
    ensures 0 <= Estimate(input).min <= FinalBase(input) <= Estimate(input).max
    ensures Estimate(input).min < Estimate(input).max
  {
    var f := FinalBase(input);
    assert Estimate(input).min == ScalePercent(f, RangeLowPercent);
    assert Estimate(input).max == ScalePercent(f, RangeHighPercent);
    FinalBaseAtLeast380(input);
    RangeAround(f);
  }

  // -------------------------------------------------------- line rules

  /** `Additional Pages (n)` is the opening of a pages line. */
  predicate IsPagesLine(item: EstimateBreakdownItem) {
    StartsWith(item.labelText, "Additional Pages (")
  }

  /** The first line is the project-type base, with the table amount. */
  lemma BaseLineFirst(input: StructuredFormInput)
    ensures |Breakdown(input)| >= 1
    ensures Breakdown(input)[0] == EstimateBreakdownItem("Base (" + input.projectType + ")", TypeEntry(input.projectType).base)
    ensures input.projectType !in KnownTypes ==> Breakdown(input)[0].amount == 1000
  {
  }

  /** No line of `items` is a pages line. */
  predicate NoPagesLine(items: seq<EstimateBreakdownItem>) {
    forall i :: 0 <= i < |items| ==> !IsPagesLine(items[i])
  }

  lemma NoPagesLineConcat(a: seq<EstimateBreakdownItem>, b: seq<EstimateBreakdownItem>)
    requires NoPagesLine(a) && NoPagesLine(b)
    ensures NoPagesLine(a + b)
  {
    forall i | 0 <= i < |a + b|
      ensures !IsPagesLine((a + b)[i])
    {
      if i >= |a| {
        assert (a + b)[i] == b[i - |a|];
      }
    }
  }

  /** A label shorter than the prefix, or differing from it at index 0 or 2, is not a pages label. */
  lemma NotPagesLabel(item: EstimateBreakdownItem)
    requires |item.labelText| < 18 || item.labelText[0] != 'A' || item.labelText[2] != 'd'
    ensures !IsPagesLine(item)
  {
    if |item.labelText| >= 18 {
      assert item.labelText[..18][0] == item.labelText[0] && item.labelText[..18][2] == item.labelText[2];
    }
  }

  lemma NoPagesLineWhen(cond: bool, item: EstimateBreakdownItem)
    requires !IsPagesLine(item)
    ensures NoPagesLine(When(cond, item))
  {
  }

  lemma FeatureLinesNoPagesLine(input: StructuredFormInput)
    ensures NoPagesLine(FeatureLines(input))
  {
    var i1 := EstimateBreakdownItem("Authentication", AuthAmount);
    var i2 := EstimateBreakdownItem("Admin Panel", AdminAmount);
    var i3 := EstimateBreakdownItem("Basic AI Features", BasicAiAmount);
    var i4 := EstimateBreakdownItem("Advanced AI Features", AdvancedAiAmount);
    NotPagesLabel(i1); NotPagesLabel(i2); NotPagesLabel(i3); NotPagesLabel(i4);
    NoPagesLineWhen(input.auth, i1);
    NoPagesLineWhen(input.adminPanel, i2);
    NoPagesLineWhen(input.aiFeatures == BasicAi, i3);
    NoPagesLineWhen(input.aiFeatures == AdvancedAi, i4);
    NoPagesLineConcat(When(input.auth, i1), When(input.adminPanel, i2));
    NoPagesLineConcat(When(input.auth, i1) + When(input.adminPanel, i2), When(input.aiFeatures == BasicAi, i3));
    NoPagesLineConcat(When(input.auth, i1) + When(input.adminPanel, i2) + When(input.aiFeatures == BasicAi, i3),
      When(input.aiFeatures == AdvancedAi, i4));
  }

  lemma LabelsNotPagesLabels(input: StructuredFormInput)
    ensures NoPagesLine(BaseLines(input))
    ensures NoPagesLine(ComplexityLines(input))
    ensures NoPagesLine(TimelineLines(input))
  {
    var base := EstimateBreakdownItem(BaseLabel(input.projectType), TypeEntry(input.projectType).base);
    assert BaseLabel(input.projectType)[0] == 'B';
    NotPagesLabel(base);
    var c := EstimateBreakdownItem(ComplexityLabel(input.complexity), ComplexityDelta(input));
    assert ComplexityLabel(input.complexity)[0] == 'C';
    NotPagesLabel(c);
    var t := EstimateBreakdownItem(TimelineLabel, TimelineDelta(input));
    NotPagesLabel(t);
    NoPagesLineWhen(ComplexityDelta(input) != 0, c);
    NoPagesLineWhen(TimelinePercent(input.timeline) != 100, t);
  }

  /**
   * With `pages > 0` the second line is always the pages line, even for zero
   * extra pages; with `pages <= 0` no line is a pages line.
   */
  lemma PagesLineRule(input: StructuredFormInput)
    ensures input.pages > 0 ==> (|Breakdown(input)| >= 2
      && Breakdown(input)[1] == EstimateBreakdownItem(PagesLabel(ExtraPages(input)), 120 * ExtraPages(input))
      && ExtraPages(input) == Max(0, input.pages - 3))
    ensures input.pages <= 0 ==> NoPagesLine(Breakdown(input))
  {
    if input.pages > 0 {
      PagesLinePresent(input);
    } else {
      PagesLineAbsent(input);
    }
  }

  /** With a positive count, the pages line comes second. */
  lemma PagesLinePresent(input: StructuredFormInput)
    requires input.pages > 0
    ensures |Breakdown(input)| >= 2
    ensures Breakdown(input)[1] == EstimateBreakdownItem(PagesLabel(ExtraPages(input)), 120 * ExtraPages(input))
  {
    var rest := FeatureLines(input) + ComplexityLines(input) + TimelineLines(input);
    assert Breakdown(input) == BaseLines(input) + PagesLines(input) + rest;
  }

  /** Otherwise there is no pages line at all. */
  lemma PagesLineAbsent(input: StructuredFormInput)
    requires input.pages <= 0
    ensures NoPagesLine(Breakdown(input))
  {
    var b, f, c, t := BaseLines(input), FeatureLines(input), ComplexityLines(input), TimelineLines(input);
    assert NoPagesLine(b + f + c + t) by {
      LabelsNotPagesLabels(input);
      FeatureLinesNoPagesLine(input);
      NoPagesLineOfFour(b, f, c, t);
    }
    assert PagesLines(input) == [];
    assert Breakdown(input) == b + f + c + t by { EmptyInFour(b, f, c, t); }
  }

  lemma NoPagesLineOfFour(b: seq<EstimateBreakdownItem>, f: seq<EstimateBreakdownItem>,
                          c: seq<EstimateBreakdownItem>, t: seq<EstimateBreakdownItem>)
    requires NoPagesLine(b) && NoPagesLine(f) && NoPagesLine(c) && NoPagesLine(t)
    ensures NoPagesLine(b + f + c + t)
  {
    NoPagesLineConcat(b, f);
    NoPagesLineConcat(b + f, c);
    NoPagesLineConcat(b + f + c, t);
  }

  lemma EmptyInFour<T>(b: seq<T>, f: seq<T>, c: seq<T>, t: seq<T>)
    ensures b + [] + f + c + t == b + f + c + t
  {
    assert b + [] == b;
  }

  /** The complexity line appears iff the complexity is not `low`, and is then positive. */
  lemma ComplexityLineRule(input: StructuredFormInput)
    ensures ComplexityLines(input) != [] <==> input.complexity != Low
    ensures input.complexity != Low ==> ComplexityDelta(input) > 0
    ensures input.complexity == Low ==> AfterComplexity(input) == Subtotal(input)
  {
    var s, p := Subtotal(input), ComplexityPercent(input.complexity);
    assert ComplexityDelta(input) * 100 == (p - 100) * s && AfterComplexity(input) * 100 == p * s && s >= 400 by {
      ComplexityStepIsExact(input);
      SubtotalMultipleOf20(input);
    }
    UpliftSign(ComplexityDelta(input), AfterComplexity(input), p, s);
  }

  /** An uplift of `p - 100` percent on a positive subtotal is zero exactly at 100%, and positive above it. */
  lemma UpliftSign(d: int, after: int, p: int, s: int)
    requires d * 100 == (p - 100) * s && after * 100 == p * s && s >= 400 && (p == 100 || p >= 135)
    ensures d != 0 <==> p != 100
    ensures p != 100 ==> d > 0
    ensures p == 100 ==> after == s
  {
    if p != 100 {
      assert (p - 100) * s >= 35 * s;
    }
  }

  /**
   * The timeline line appears iff the timeline is not `normal`; rushed adds
   * to the price and flexible takes from it.
   */
  lemma TimelineLineRule(input: StructuredFormInput)
    ensures TimelineLines(input) != [] <==> input.timeline != Normal
    ensures input.timeline == Normal ==> FinalBase(input) == AfterComplexity(input)
    ensures input.timeline == Rushed ==> TimelineDelta(input) > 0
    ensures input.timeline == Flexible ==> TimelineDelta(input) < 0
  {
    FinalBaseAtLeast380(input);
    TimelineStep(AfterComplexity(input), input.timeline);
  }

  lemma TimelineStep(a: nat, t: Timeline)
    requires a >= 400
    ensures t == Normal ==> ScalePercent(a, TimelinePercent(t)) == a
    ensures t == Rushed ==> ScalePercent(a, TimelinePercent(t)) > a
    ensures t == Flexible ==> ScalePercent(a, TimelinePercent(t)) < a
  {
    ScalePercentIdentity(a);
    if t == Rushed {
      MulMonotone(400, a, 25);
    } else if t == Flexible {
      MulMonotone(400, a, 5);
    }
  }

  /** How many lines there are: one per step that fires. */
  lemma BreakdownLength(input: StructuredFormInput)
    ensures |Breakdown(input)| == 1 + (if input.pages > 0 then 1 else 0)
      + (if input.auth then 1 else 0) + (if input.adminPanel then 1 else 0)
      + (if input.aiFeatures != NoAi then 1 else 0)
      + (if input.complexity != Low then 1 else 0) + (if input.timeline != Normal then 1 else 0)
  {
    assert |ComplexityLines(input)| == (if input.complexity != Low then 1 else 0) by {
      ComplexityLineRule(input);
    }
    assert |TimelineLines(input)| == (if input.timeline != Normal then 1 else 0) by {
      TimelineLineRule(input);
    }
    assert |FeatureLines(input)| == (if input.auth then 1 else 0) + (if input.adminPanel then 1 else 0)
      + (if input.aiFeatures != NoAi then 1 else 0);
  }

  // ------------------------------------------------------------- weeks

  /**
   * Weeks: the unadjusted count is the nearest integer to hours / 15 on the
   * unrounded hours; rushed shortens it but never below one, flexible
   * lengthens it and normal keeps it. The hours are the nearest integer.
   */
  lemma WeeksRule(input: StructuredFormInput)
    ensures var w := BaseWeeks(input); var h := HoursTenths(input);
      300 * w <= 2 * h + 150 < 300 * w + 300
    ensures var h := HoursTenths(input); var r := Estimate(input).hours;
      20 * r <= 2 * h + 10 < 20 * r + 20
    ensures input.timeline == Normal ==> Estimate(input).timelineWeeks == BaseWeeks(input)
    ensures input.timeline == Rushed ==>
      1 <= Estimate(input).timelineWeeks <= Max(1, BaseWeeks(input))
      && Estimate(input).timelineWeeks == Max(1, ScalePercent(BaseWeeks(input), 75))
    ensures input.timeline == Flexible ==>
      Estimate(input).timelineWeeks >= BaseWeeks(input)
      && Estimate(input).timelineWeeks == ScalePercent(BaseWeeks(input), 110)
  {
    var w := BaseWeeks(input);
    ScalePercentFactorMonotone(w, 75, 100);
    ScalePercentFactorMonotone(w, 100, 110);
    ScalePercentIdentity(w);
  }

  // --------------------------------------------- assumptions and suggestions

  /**
   * The three baseline assumptions come first, in order; the admin caveat is
   * present iff there is an admin panel, the AI caveat iff there is AI.
   */
  lemma AssumptionRules(input: StructuredFormInput)
    ensures var a := Estimate(input).assumptions;
      |a| == 3 + (if input.adminPanel then 1 else 0) + (if input.aiFeatures != NoAi then 1 else 0)
      && a[..3] == BaselineAssumptions
      && (AdminAssumption in a <==> input.adminPanel)
      && (AiAssumption in a <==> input.aiFeatures != NoAi)
      && (input.adminPanel ==> a[3] == AdminAssumption)
      && (input.aiFeatures != NoAi ==> a[|a| - 1] == AiAssumption)
  {
    var a := Estimate(input).assumptions;
    assert AdminAssumption !in BaselineAssumptions && AiAssumption !in BaselineAssumptions by {
      assert |AdminAssumption| != |BaselineAssumptions[0]| && |AdminAssumption| != |BaselineAssumptions[1]|
        && |AdminAssumption| != |BaselineAssumptions[2]|;
      assert |AiAssumption| != |BaselineAssumptions[0]| && |AiAssumption| != |BaselineAssumptions[1]|
        && |AiAssumption| != |BaselineAssumptions[2]|;
    }
    assert |AdminAssumption| != |AiAssumption|;
  }

  lemma SuggestionsDistinct()
    ensures AuthSuggestion != PhasingSuggestion && AuthSuggestion != TimelineSuggestion
    ensures PhasingSuggestion != TimelineSuggestion
  {
  }

  /**
   * Suggestions, in order: the auth nudge iff there is no auth, phasing iff
   * more than ten pages, the timeline nudge iff rushed; each appears at most
   * once, so the list is empty exactly when none of the three applies.
   */
  lemma SuggestionRules(input: StructuredFormInput)
    ensures var s := Estimate(input).suggestions;
      (AuthSuggestion in s <==> !input.auth)
      && (PhasingSuggestion in s <==> input.pages > 10)
      && (TimelineSuggestion in s <==> input.timeline == Rushed)
      && (s == [] <==> input.auth && input.pages <= 10 && input.timeline != Rushed)
      && (!input.auth ==> s[0] == AuthSuggestion)
      && (input.timeline == Rushed ==> s[|s| - 1] == TimelineSuggestion)
      && |s| == (if !input.auth then 1 else 0) + (if input.pages > 10 then 1 else 0)
        + (if input.timeline == Rushed then 1 else 0)
  {
    SuggestionsDistinct();
  }

  // ------------------------------------------------------- monotonicity

  /**
   * The final price grows with the subtotal, the complexity factor and the
   * timeline factor, and the range with it.
   */
  lemma PriceMonotone(a: StructuredFormInput, b: StructuredFormInput)
    requires Subtotal(a) <= Subtotal(b)
    requires ComplexityPercent(a.complexity) <= ComplexityPercent(b.complexity)
    requires TimelinePercent(a.timeline) <= TimelinePercent(b.timeline)
    ensures FinalBase(a) <= FinalBase(b)
    ensures Estimate(a).min <= Estimate(b).min && Estimate(a).max <= Estimate(b).max
  {
    var pa, pb := ComplexityPercent(a.complexity), ComplexityPercent(b.complexity);
    ScalePercentMonotone(Subtotal(a), Subtotal(b), pa);
    ScalePercentFactorMonotone(Subtotal(b), pa, pb);
    var ta, tb := TimelinePercent(a.timeline), TimelinePercent(b.timeline);
    ScalePercentMonotone(AfterComplexity(a), AfterComplexity(b), ta);
    ScalePercentFactorMonotone(AfterComplexity(b), ta, tb);
    ScalePercentMonotone(FinalBase(a), FinalBase(b), RangeLowPercent);
    ScalePercentMonotone(FinalBase(a), FinalBase(b), RangeHighPercent);
  }

  lemma AdjustWeeksMonotone(t: Timeline, v: nat, w: nat)
    requires v <= w
    ensures AdjustWeeks(t, v) <= AdjustWeeks(t, w)
  {
    ScalePercentMonotone(v, w, RushedWeeksPercent);
    ScalePercentMonotone(v, w, FlexibleWeeksPercent);
  }

  /**
   * Raising `pages` with every other field fixed never lowers the range, the
   * hours or the weeks.
   */
  lemma MorePagesNeverCheaper(input: StructuredFormInput, pages: int)
    requires input.pages <= pages
    ensures var more := input.(pages := pages);
      Estimate(input).min <= Estimate(more).min && Estimate(input).max <= Estimate(more).max
      && Estimate(input).hours <= Estimate(more).hours
      && Estimate(input).timelineWeeks <= Estimate(more).timelineWeeks
  {
    var more := input.(pages := pages);
    assert ExtraPages(input) <= ExtraPages(more);
    MulMonotone(ExtraPages(input), ExtraPages(more), PerPage);
    MulMonotone(ExtraPages(input), ExtraPages(more), PerPageHoursTenths);
    assert PerPage * ExtraPages(input) <= PerPage * ExtraPages(more);
    PriceMonotone(input, more);
    RoundRatioMonotone(HoursTenths(input), HoursTenths(more), 10);
    RoundRatioMonotone(HoursTenths(input), HoursTenths(more), 10 * HoursPerWeek);
    AdjustWeeksMonotone(input.timeline, BaseWeeks(input), BaseWeeks(more));
  }

  /**
   * Adding auth, adding the admin panel, raising the AI tier or raising the
   * complexity, each on its own or together, never lowers the range.
   */
  lemma MoreScopeNeverCheaper(input: StructuredFormInput, auth: bool, adminPanel: bool, c: Complexity, ai: AiFeatures)
    requires input.auth ==> auth
    requires input.adminPanel ==> adminPanel
    requires ComplexityPercent(input.complexity) <= ComplexityPercent(c)
    requires AiAmount(input.aiFeatures) <= AiAmount(ai)
    ensures var more := input.(auth := auth, adminPanel := adminPanel, complexity := c, aiFeatures := ai);
      Estimate(input).min <= Estimate(more).min && Estimate(input).max <= Estimate(more).max
  {
    var more := input.(auth := auth, adminPanel := adminPanel, complexity := c, aiFeatures := ai);
    PriceMonotone(input, more);
  }

  // ------------------------------------------------------ worked inputs

  /** landing, 3 pages, low, no features, normal. */
  lemma LandingExample()
    ensures var r := Estimate(StructuredFormInput("landing", 3, Low, false, false, NoAi, Normal, ""));
      r.min == 528 && r.max == 672 && r.hours == 12 && r.timelineWeeks == 1 && r.currency == "USD"
      && r.breakdown == [EstimateBreakdownItem("Base (landing)", 600), EstimateBreakdownItem("Additional Pages (0)", 0)]
      && r.assumptions == BaselineAssumptions
      && r.suggestions == [AuthSuggestion]
  {
    var input := StructuredFormInput("landing", 3, Low, false, false, NoAi, Normal, "");
    assert TypeEntry("landing") == TypeRate(600, 12);
    assert NatToString(0) == "0";
    assert BaseLabel("landing") == "Base (landing)";
    assert PagesLabel(0) == "Additional Pages (0)";
    ScalePercentIdentity(600);
  }

  /** web-app, 8 pages, medium, auth, admin, advanced AI, rushed. */
  lemma WebAppExample()
    ensures var r := Estimate(StructuredFormInput("web-app", 8, Medium, true, true, AdvancedAi, Rushed, ""));
      r.min == 6385 && r.max == 8127 && r.hours == 85 && r.timelineWeeks == 5
      && r.breakdown == [
        EstimateBreakdownItem("Base (web-app)", 1500),
        EstimateBreakdownItem("Additional Pages (5)", 600),
        EstimateBreakdownItem("Authentication", 400),
        EstimateBreakdownItem("Admin Panel", 600),
        EstimateBreakdownItem("Advanced AI Features", 1200),
        EstimateBreakdownItem("Complexity uplift (medium)", 1505),
        EstimateBreakdownItem("Timeline adjustment", 1451)]
      && r.assumptions == BaselineAssumptions + [AdminAssumption, AiAssumption]
      && r.suggestions == [TimelineSuggestion]
  {
    var input := StructuredFormInput("web-app", 8, Medium, true, true, AdvancedAi, Rushed, "");
    assert TypeEntry("web-app") == TypeRate(1500, 30);
    assert NatToString(5) == "5";
    assert BaseLabel("web-app") == "Base (web-app)";
    assert PagesLabel(5) == "Additional Pages (5)";
    assert ComplexityLabel(Medium) == "Complexity uplift (medium)";
    assert Subtotal(input) == 4300;
    assert AfterComplexity(input) == 5805;
    assert FinalBase(input) == 7256;
    assert HoursTenths(input) == 850;
    assert BaseWeeks(input) == 6;
  }
}
