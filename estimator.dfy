/**
 * The estimator form (components/Estimator.tsx): the pages text field and
 * its edit/blur handlers, `updateForm`, the inline suggestions shown under
 * the form, and `calculate`, which falls back to the local rule engine when
 * the request fails in structured mode. The request itself is a parameter:
 * what the server answered, or the message of the error that was thrown.
 */
module Estimator {
  import opened Wrappers
  import opened Strings
  import opened Numerals
  import opened Estimation

  // ----------------------------------------------------------- pages field

  /** The pages count held by the form and the text shown in the pages input. */
  datatype PagesField = PagesField(pages: int, text: string)

  /** The field as the component starts: `pages: 5` and `pages.toString()`. */
  const InitialPages := 5

  function InitialField(): (f: PagesField)
    ensures FieldValid(f)
  {
    PagesField(InitialPages, NatToString(InitialPages))
  }

  /** What the handlers keep: a positive count and a text of digits only. */
  predicate FieldValid(f: PagesField) {
    f.pages >= 1 && AllDigits(f.text)
  }

  /** `onChange`: the new text is taken only when it matches `/^\d*$/`. */
  function OnChange(f: PagesField, value: string): (r: PagesField)
    ensures r.pages == f.pages
    ensures AllDigits(value) ==> r.text == value
    ensures !AllDigits(value) ==> r == f
  {
    if AllDigits(value) then f.(text := value) else f
  }

  /**
   * `onBlur`: a text that parses to a positive number sets the count and is
   * rewritten as that number's decimal form; any other text is replaced by
   * the current count.
   */
  function OnBlur(f: PagesField): (r: PagesField) {
    match ParseInt(f.text)
    case Some(n) =>
      if n > 0 then PagesField(n, NatToString(n)) else f.(text := IntToString(f.pages))
    case None => f.(text := IntToString(f.pages))
  }

  /** One user action on the pages input. */
  datatype PagesEvent = Edit(value: string) | Blur

  function Step(f: PagesField, e: PagesEvent): PagesField {
    match e
    case Edit(value) => OnChange(f, value)
    case Blur => OnBlur(f)
  }

  /** The field after a sequence of actions, first action first. */
  function Replay(f: PagesField, events: seq<PagesEvent>): PagesField
    decreases |events|
  {
    if events == [] then f else Replay(Step(f, events[0]), events[1..])
  }

  /** A digits-only text parses to its value, so the positive case sets exactly that value. */
  lemma BlurRules(f: PagesField)
    requires AllDigits(f.text)
    ensures f.text != [] && DigitsValue(f.text) > 0 ==>
      OnBlur(f) == PagesField(DigitsValue(f.text), NatToString(DigitsValue(f.text)))
    ensures f.text == [] || DigitsValue(f.text) == 0 ==>
      OnBlur(f) == PagesField(f.pages, IntToString(f.pages))
  {
    if f.text == [] {
      ParseIntOfEmpty();
    } else {
      ParseIntOfDigits(f.text);
    }
  }

  /** The two outcomes of a blur, by what the text parses to. */
  lemma BlurCases(f: PagesField)
    ensures var p := ParseInt(f.text);
      (p.Some? && p.value > 0 ==> OnBlur(f) == PagesField(p.value, NatToString(p.value)))
      && (!(p.Some? && p.value > 0) ==> OnBlur(f) == PagesField(f.pages, IntToString(f.pages)))
  {
  }

  /** Each action keeps the count positive and the text made of digits. */
  lemma StepKeepsValid(f: PagesField, e: PagesEvent)
    requires FieldValid(f)
    ensures FieldValid(Step(f, e))
  {
    if e.Blur? {
      BlurRules(f);
    }
  }

  /** The count stays at least 1 over any sequence of edits and blurs. */
  lemma {:induction false} ReplayKeepsValid(f: PagesField, events: seq<PagesEvent>)
    requires FieldValid(f)
    ensures FieldValid(Replay(f, events))
    decreases |events|
  {
    if events != [] {
      StepKeepsValid(f, events[0]);
      ReplayKeepsValid(Step(f, events[0]), events[1..]);
    }
  }

  /** From the initial field, every reachable state has `pages >= 1`. */
  lemma PagesNeverBelowOne(events: seq<PagesEvent>)
    ensures Replay(InitialField(), events).pages >= 1
  {
    ReplayKeepsValid(InitialField(), events);
  }

  /** After a blur the text is the canonical decimal form of the count. */
  lemma BlurShowsCount(f: PagesField)
    requires FieldValid(f)
    ensures OnBlur(f).text == NatToString(OnBlur(f).pages)
    ensures ParseInt(OnBlur(f).text) == Some(OnBlur(f).pages)
  {
    BlurRules(f);
    ParseIntOfNatToString(OnBlur(f).pages);
  }

  /** A second blur changes nothing. */
  lemma BlurIdempotent(f: PagesField)
    requires FieldValid(f)
    ensures OnBlur(OnBlur(f)) == OnBlur(f)
  {
    BlurRules(f);
    var g := OnBlur(f);
    ParseIntOfNatToString(g.pages);
  }

  /** Leading zeros are dropped: `"007"` becomes 7 and `"7"`. */
  lemma BlurDropsLeadingZeros(f: PagesField)
    requires f.text == "007"
    ensures OnBlur(f) == PagesField(7, "7")
  {
    assert AllDigits(f.text);
    assert f.text[..2] == "00" && f.text[..2][..1] == "0" && f.text[..2][..1][..0] == [];
    assert DigitsValue(f.text[..2][..1]) == 0;
    assert DigitsValue(f.text[..2]) == 0;
    assert DigitsValue(f.text) == 7;
    BlurRules(f);
    assert NatToString(7) == "7";
  }

  /** An empty or all-zero text reverts to the count it had. */
  lemma BlurRevertsWithoutPositive(f: PagesField, value: string)
    requires FieldValid(f) && AllDigits(value) && (value == [] || DigitsValue(value) == 0)
    ensures OnBlur(OnChange(f, value)) == PagesField(f.pages, NatToString(f.pages))
  {
    BlurRules(OnChange(f, value));
  }

  // ------------------------------------------------------------ updateForm

  /** The keys of `StructuredFormInput`. */
  datatype FormKey =
    | ProjectTypeKey | PagesKey | ComplexityKey | AuthKey
    | AdminPanelKey | AiFeaturesKey | TimelineKey | NotesKey

  /** A call `updateForm(k, v)`: the key and a value of that key's type. */
  datatype FormUpdate =
    | SetProjectType(projectType: string)
    | SetPages(pages: int)
    | SetComplexity(complexity: Complexity)
    | SetAuth(auth: bool)
    | SetAdminPanel(adminPanel: bool)
    | SetAiFeatures(aiFeatures: AiFeatures)
    | SetTimeline(timeline: Timeline)
    | SetNotes(notes: string)

  function KeyOf(u: FormUpdate): FormKey {
    match u
    case SetProjectType(_) => ProjectTypeKey
    case SetPages(_) => PagesKey
    case SetComplexity(_) => ComplexityKey
    case SetAuth(_) => AuthKey
    case SetAdminPanel(_) => AdminPanelKey
    case SetAiFeatures(_) => AiFeaturesKey
    case SetTimeline(_) => TimelineKey
    case SetNotes(_) => NotesKey
  }

  /** Two forms agree on field `k`. */
  predicate AgreeOn(f: StructuredFormInput, g: StructuredFormInput, k: FormKey) {
    match k
    case ProjectTypeKey => f.projectType == g.projectType
    case PagesKey => f.pages == g.pages
    case ComplexityKey => f.complexity == g.complexity
    case AuthKey => f.auth == g.auth
    case AdminPanelKey => f.adminPanel == g.adminPanel
    case AiFeaturesKey => f.aiFeatures == g.aiFeatures
    case TimelineKey => f.timeline == g.timeline
    case NotesKey => f.notes == g.notes
  }

  /** The form holds the value the update carries. */
  predicate Holds(g: StructuredFormInput, u: FormUpdate) {
    match u
    case SetProjectType(v) => g.projectType == v
    case SetPages(v) => g.pages == v
    case SetComplexity(v) => g.complexity == v
    case SetAuth(v) => g.auth == v
    case SetAdminPanel(v) => g.adminPanel == v
    case SetAiFeatures(v) => g.aiFeatures == v
    case SetTimeline(v) => g.timeline == v
    case SetNotes(v) => g.notes == v
  }

  /** `{ ...f, [k]: v }`. */
  function WithUpdate(f: StructuredFormInput, u: FormUpdate): StructuredFormInput {
    match u
    case SetProjectType(v) => f.(projectType := v)
    case SetPages(v) => f.(pages := v)
    case SetComplexity(v) => f.(complexity := v)
    case SetAuth(v) => f.(auth := v)
    case SetAdminPanel(v) => f.(adminPanel := v)
    case SetAiFeatures(v) => f.(aiFeatures := v)
    case SetTimeline(v) => f.(timeline := v)
    case SetNotes(v) => f.(notes := v)
  }

  /**
   * `updateForm(k, v)` changes exactly field `k`: the updated form is the one
   * and only form that holds `v` at `k` and agrees with `f` everywhere else.
   */
  lemma UpdateChangesExactlyItsKey(f: StructuredFormInput, u: FormUpdate, g: StructuredFormInput)
    ensures g == WithUpdate(f, u) <==> Holds(g, u) && forall k :: k != KeyOf(u) ==> AgreeOn(f, g, k)
  {
    if Holds(g, u) && forall k :: k != KeyOf(u) ==> AgreeOn(f, g, k) {
      assert AgreeOn(f, g, ProjectTypeKey) || KeyOf(u) == ProjectTypeKey;
      assert AgreeOn(f, g, PagesKey) || KeyOf(u) == PagesKey;
      assert AgreeOn(f, g, ComplexityKey) || KeyOf(u) == ComplexityKey;
      assert AgreeOn(f, g, AuthKey) || KeyOf(u) == AuthKey;
      assert AgreeOn(f, g, AdminPanelKey) || KeyOf(u) == AdminPanelKey;
      assert AgreeOn(f, g, AiFeaturesKey) || KeyOf(u) == AiFeaturesKey;
      assert AgreeOn(f, g, TimelineKey) || KeyOf(u) == TimelineKey;
      assert AgreeOn(f, g, NotesKey) || KeyOf(u) == NotesKey;
    }
  }

  /** Writing the same key twice keeps the last value; writing two different keys commutes. */
  lemma UpdateLaws(f: StructuredFormInput, u: FormUpdate, w: FormUpdate)
    ensures KeyOf(u) == KeyOf(w) ==> WithUpdate(WithUpdate(f, u), w) == WithUpdate(f, w)
    ensures KeyOf(u) != KeyOf(w) ==> WithUpdate(WithUpdate(f, u), w) == WithUpdate(WithUpdate(f, w), u)
    ensures WithUpdate(WithUpdate(f, u), u) == WithUpdate(f, u)
  {
  }

  // ---------------------------------------------------- inline suggestions

  datatype Mode = Freeform | StructuredMode

  const PagesAtLeastOneHint := "Pages should be at least 1."
  const PhasingHint := "Consider phasing large page counts."
  const RiskHint := "High complexity + rushed timeline may increase risk."
  const DetailHint := "Add more detail: target users, main features, timeline."
  const AccountsHint := "Specify if user accounts / authentication are needed."
  const AdminHint := "Mention if an admin dashboard is required."

  const MinDescriptionChars := 40
  const ManyPages := 25

  /** `/auth|login|signup|sign up/i.test(description)`. */
  predicate MentionsAccounts(description: string) {
    ContainsIgnoreCase(description, "auth") || ContainsIgnoreCase(description, "login")
    || ContainsIgnoreCase(description, "signup") || ContainsIgnoreCase(description, "sign up")
  }

  /** `/admin|dashboard/i.test(description)`. */
  predicate MentionsAdmin(description: string) {
    ContainsIgnoreCase(description, "admin") || ContainsIgnoreCase(description, "dashboard")
  }

  /** The suggestions effect: three form checks in structured mode, three text checks in free-form mode. */
  function InlineSuggestions(mode: Mode, form: StructuredFormInput, description: string): seq<string> {
    match mode
    case StructuredMode =>
      When(form.pages <= 0, PagesAtLeastOneHint) + When(form.pages > ManyPages, PhasingHint)
      + When(form.complexity == High && form.timeline == Rushed, RiskHint)
    case Freeform =>
      When(|description| < MinDescriptionChars, DetailHint) + When(!MentionsAccounts(description), AccountsHint)
      + When(!MentionsAdmin(description), AdminHint)
  }

  /** Each structured hint is shown exactly when its condition holds, once, in the source's order, and the two page hints never both. */
  lemma StructuredSuggestionRules(form: StructuredFormInput, description: string)
    ensures var s := InlineSuggestions(StructuredMode, form, description);
      (PagesAtLeastOneHint in s <==> form.pages <= 0)
      && (PhasingHint in s <==> form.pages > ManyPages)
      && (RiskHint in s <==> form.complexity == High && form.timeline == Rushed)
      && |s| <= 2
      && |s| == (if form.pages <= 0 then 1 else 0) + (if form.pages > ManyPages then 1 else 0)
                + (if form.complexity == High && form.timeline == Rushed then 1 else 0)
      && (DetailHint !in s && AccountsHint !in s && AdminHint !in s)
      && (RiskHint in s ==> s[|s| - 1] == RiskHint)
      && (form.pages <= 0 ==> s[0] == PagesAtLeastOneHint)
  {
  }

  /** On a form whose pages field holds its invariant, the first hint never shows. */
  lemma ValidFormNeverAsksForPages(form: StructuredFormInput, text: string, description: string)
    requires FieldValid(PagesField(form.pages, text))
    ensures PagesAtLeastOneHint !in InlineSuggestions(StructuredMode, form, description)
  {
    StructuredSuggestionRules(form, description);
  }

  /** Each free-form hint is shown exactly when its condition holds, once, in the source's order. */
  lemma FreeformSuggestionRules(form: StructuredFormInput, description: string)
    ensures var s := InlineSuggestions(Freeform, form, description);
      (DetailHint in s <==> |description| < MinDescriptionChars)
      && (AccountsHint in s <==> !MentionsAccounts(description))
      && (AdminHint in s <==> !MentionsAdmin(description))
      && (PagesAtLeastOneHint !in s && PhasingHint !in s && RiskHint !in s)
      && (|description| < MinDescriptionChars ==> s[0] == DetailHint)
      && (AdminHint in s ==> s[|s| - 1] == AdminHint)
      && |s| == (if |description| < MinDescriptionChars then 1 else 0) + (if !MentionsAccounts(description) then 1 else 0)
                + (if !MentionsAdmin(description) then 1 else 0)
  {
    HintsDistinct();
    var a := When(|description| < MinDescriptionChars, DetailHint);
    var b := When(!MentionsAccounts(description), AccountsHint);
    var c := When(!MentionsAdmin(description), AdminHint);
    assert InlineSuggestions(Freeform, form, description) == a + b + c;
    InConcat3(a, b, c);
  }

  lemma InConcat3(a: seq<string>, b: seq<string>, c: seq<string>)
    ensures forall x :: x in a + b + c <==> x in a || x in b || x in c
  {
  }

  /** The six hints are different texts. */
  lemma HintsDistinct()
    ensures PagesAtLeastOneHint != PhasingHint && PagesAtLeastOneHint != RiskHint
    ensures PagesAtLeastOneHint != DetailHint && PagesAtLeastOneHint != AccountsHint && PagesAtLeastOneHint != AdminHint
    ensures PhasingHint != RiskHint && PhasingHint != DetailHint && PhasingHint != AccountsHint && PhasingHint != AdminHint
    ensures RiskHint != DetailHint && RiskHint != AccountsHint && RiskHint != AdminHint
    ensures DetailHint != AccountsHint && DetailHint != AdminHint && AccountsHint != AdminHint
  {
  }

  /** Matching ignores case: a description mentioning `LOGIN` or `Dashboard` gets neither account nor admin hint. */
  lemma MentionsIgnoreCase(description: string, k: nat, j: nat)
    requires k + 5 <= |description| && Lower(description[k..k + 5]) == "login"
    requires j + 9 <= |description| && Lower(description[j..j + 9]) == "dashboard"
    ensures AccountsHint !in InlineSuggestions(Freeform, StructuredFormInput("", 0, Low, false, false, NoAi, Normal, ""), description)
    ensures AdminHint !in InlineSuggestions(Freeform, StructuredFormInput("", 0, Low, false, false, NoAi, Normal, ""), description)
  {
    FoundWhereItStarts(description, "login", k);
    FoundWhereItStarts(description, "dashboard", j);
  }

  /** A case-insensitive occurrence is found by the search. */
  lemma FoundWhereItStarts(s: string, pat: string, k: nat)
    requires k + |pat| <= |s| && Lower(s[k..k + |pat|]) == pat
    ensures ContainsIgnoreCase(s, pat)
  {
    assert MatchAt(s, pat, k);
  }

  // ------------------------------------------------------------ component

  /** What `fetch('/api/estimate')` led to: a parsed reply, or the message of an error thrown on the way. */
  datatype ApiOutcome =
    | Replied(ok: bool, error: string, source: string, estimate: EstimateResult)
    | Threw(message: string)

  /** The result state `calculate` leaves: the error shown, the estimate shown and its source label. */
  datatype CalcState = CalcState(error: Option<string>, result: Option<EstimateResult>, source: string)

  const FallbackSource := "fallback-local"
  const DefaultFailure := "Failed"

  /**
   * `calculate`: a reply that is ok and carries no error is shown as is;
   * otherwise the error message (`data.error || 'Failed'`, or the thrown
   * message) is shown, and in structured mode the local rule estimate of the
   * form is shown with source `fallback-local`.
   */
  function CalcResult(mode: Mode, form: StructuredFormInput, outcome: ApiOutcome): CalcState {
    var failure: Option<string> :=
      match outcome
      case Threw(message) => Some(message)
      case Replied(ok, error, _, _) =>
        if !ok || error != "" then Some(if error != "" then error else DefaultFailure) else None;
    match failure
    case None => CalcState(None, Some(outcome.estimate), outcome.source)
    case Some(message) =>
      if mode == StructuredMode then CalcState(Some(message), Some(Estimate(form)), FallbackSource)
      else CalcState(Some(message), None, "")
  }

  /** A failed request in structured mode still shows the local estimate; in free-form mode it shows none. */
  lemma FallbackRules(mode: Mode, form: StructuredFormInput, outcome: ApiOutcome)
    ensures var c := CalcResult(mode, form, outcome);
      var failed := outcome.Threw? || !outcome.ok || outcome.error != "";
      (failed <==> c.error.Some?)
      && (!failed ==> c.result == Some(outcome.estimate) && c.source == outcome.source)
      && (failed && mode == StructuredMode ==> c.result == Some(Estimate(form)) && c.source == FallbackSource)
      && (failed && mode == Freeform ==> c.result.None? && c.source == "")
      && (c.error.Some? ==> c.error.value != "" || outcome.Threw?)
  {
  }

  /** The estimator component's state. */
  class EstimatorState {
    var mode: Mode
    var description: string
    var form: StructuredFormInput
    var pagesInput: string
    var loading: bool
    var error: Option<string>
    var result: Option<EstimateResult>
    var resultSource: string

    /** The pages input together with the count it edits. */
    function Field(): PagesField
      reads this
    {
      PagesField(form.pages, pagesInput)
    }

    /** The list the suggestions effect computes from `mode`, `form` and `description`. */
    function Suggestions(): seq<string>
      reads this
    {
      InlineSuggestions(mode, form, description)
    }

    ghost predicate Valid()
      reads this
    {
      FieldValid(Field())
    }

    constructor (initialDescription: string)
      ensures Valid()
      ensures mode == Freeform && description == initialDescription
      ensures form == StructuredFormInput("web-app", InitialPages, Medium, true, false, NoAi, Normal, "")
      ensures Field() == InitialField()
      ensures !loading && error.None? && result.None? && resultSource == ""
    {
      mode := Freeform;
      description := initialDescription;
      form := StructuredFormInput("web-app", InitialPages, Medium, true, false, NoAi, Normal, "");
      pagesInput := NatToString(InitialPages);
      loading := false;
      error := None;
      result := None;
      resultSource := "";
    }

    method SetMode(m: Mode)
      modifies this
      ensures mode == m
      ensures description == old(description) && form == old(form) && pagesInput == old(pagesInput)
      ensures loading == old(loading) && error == old(error) && result == old(result) && resultSource == old(resultSource)
    {
      mode := m;
    }

    method SetDescription(d: string)
      modifies this
      ensures description == d
      ensures mode == old(mode) && form == old(form) && pagesInput == old(pagesInput)
      ensures loading == old(loading) && error == old(error) && result == old(result) && resultSource == old(resultSource)
    {
      description := d;
    }

    /**
     * `updateForm(k, v)`. The pages control only ever writes a positive
     * count, so the pages invariant is kept.
     */
    method UpdateForm(u: FormUpdate)
      requires Valid()
      requires u.SetPages? ==> u.pages >= 1
      modifies this
      ensures Valid()
      ensures form == WithUpdate(old(form), u)
      ensures mode == old(mode) && description == old(description) && pagesInput == old(pagesInput)
      ensures loading == old(loading) && error == old(error) && result == old(result) && resultSource == old(resultSource)
    {
      form := match u
        case SetProjectType(v) => form.(projectType := v)
        case SetPages(v) => form.(pages := v)
        case SetComplexity(v) => form.(complexity := v)
        case SetAuth(v) => form.(auth := v)
        case SetAdminPanel(v) => form.(adminPanel := v)
        case SetAiFeatures(v) => form.(aiFeatures := v)
        case SetTimeline(v) => form.(timeline := v)
        case SetNotes(v) => form.(notes := v);
    }

    /** The pages input's `onChange`. */
    method OnPagesChange(value: string)
      requires Valid()
      modifies this
      ensures Valid()
      ensures Field() == OnChange(old(Field()), value)
      ensures mode == old(mode) && description == old(description) && form == old(form)
      ensures loading == old(loading) && error == old(error) && result == old(result) && resultSource == old(resultSource)
    {
      if AllDigits(value) {
        pagesInput := value;
      }
    }

    /**
     * The pages input's `onBlur`, together with the effect that rewrites the
     * input whenever `form.pages` changes (it writes the same text).
     */
    method OnPagesBlur()
      requires Valid()
      modifies this
      ensures Valid()
      ensures Field() == OnBlur(old(Field()))
      ensures form == WithUpdate(old(form), SetPages(Field().pages))
      ensures mode == old(mode) && description == old(description)
      ensures loading == old(loading) && error == old(error) && result == old(result) && resultSource == old(resultSource)
    {
      ghost var before := Field();
      var parsed := ParseInt(pagesInput);
      if parsed.Some? && parsed.value > 0 {
        CommitPages(parsed.value);
      } else {
        RestorePagesText();
      }
      assert Field() == OnBlur(before) by { BlurCases(before); }
    }

    /** A blur over a positive count: the form takes it and the input shows its digits. */
    method CommitPages(n: int)
      requires Valid() && n > 0
      modifies this
      ensures Valid()
      ensures Field() == PagesField(n, NatToString(n))
      ensures form == WithUpdate(old(form), SetPages(n))
      ensures mode == old(mode) && description == old(description)
      ensures loading == old(loading) && error == old(error) && result == old(result) && resultSource == old(resultSource)
    {
      UpdateForm(SetPages(n));
      pagesInput := NatToString(n);
    }

    /** A blur over anything else: the input shows the count the form already holds. */
    method RestorePagesText()
      requires Valid()
      modifies this
      ensures Valid()
      ensures Field() == PagesField(old(form.pages), IntToString(old(form.pages)))
      ensures form == old(form) == WithUpdate(old(form), SetPages(old(form.pages)))
      ensures mode == old(mode) && description == old(description)
      ensures loading == old(loading) && error == old(error) && result == old(result) && resultSource == old(resultSource)
    {
      pagesInput := IntToString(form.pages);
    }

    /** `calculate`, with the request's outcome given. */
    method Calculate(outcome: ApiOutcome)
      modifies this
      ensures CalcState(error, result, resultSource) == CalcResult(old(mode), old(form), outcome)
      ensures !loading
      ensures mode == old(mode) && description == old(description) && form == old(form) && pagesInput == old(pagesInput)
    {
      loading := true;
      error := None;
      result := None;
      resultSource := "";
      var failure: Option<string> := None;
      match outcome {
        case Threw(message) =>
          failure := Some(message);
        case Replied(ok, err, source, estimate) =>
          if !ok || err != "" {
            failure := Some(if err != "" then err else DefaultFailure);
          } else {
            result := Some(estimate);
            resultSource := source;
          }
      }
      if failure.Some? {
        error := failure;
        if mode == StructuredMode {
          var est := ComputeRuleEstimate(form);
          result := Some(est);
          resultSource := FallbackSource;
        }
      }
      loading := false;
    }
  }
}
