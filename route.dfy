/**
 * The estimate API route (app/api/estimate/route.ts): the per-IP fixed-window
 * rate limiter, the request schemas, the sanitiser that clamps a model reply
 * into a valid form, and the order of the checks in `POST`.
 *
 * The clock, the request headers, `JSON.parse`, the origin allow list and the
 * language-model call are inputs here: `now`, the client address, the parsed
 * body, whether the origin is allowed and the parsed reply are parameters.
 */
module EstimateRoute {
  import opened Wrappers
  import opened Strings
  import opened Json
  import opened Estimation

  const RateLimitWindowMs := 10 * 60 * 1000
  const RateLimitMax := 20
  const MaxBodyChars := 16 * 1024
  const MaxDescChars := 2000
  const MinDescChars := 5
  const MaxNotesChars := 500
  const MaxPages := 200

  const ProjectTypes: set<string> := {"landing", "web-app", "script", "mobile", "other"}

  function Min(a: int, b: int): int {
    if a <= b then a else b
  }

  // ---------------------------------------------------------- rate limiter

  /** One entry of `ipHits`: requests counted in the window opened at `start`. */
  datatype HitRecord = HitRecord(count: int, start: int)

  /** The verdict on one request and the record the map holds afterwards. */
  datatype Admission = Admission(allowed: bool, record: HitRecord)

  /**
   * `rateLimit` on one address, given its current record (if any): an unseen
   * address or an expired window starts a new window; a full window rejects
   * and keeps the record; otherwise the count goes up by one.
   */
  function Admit(rec: Option<HitRecord>, now: int): (a: Admission)
    ensures a.allowed <==> rec.None? || now - rec.value.start > RateLimitWindowMs || rec.value.count < RateLimitMax
    ensures rec.None? || now - rec.value.start > RateLimitWindowMs ==> a.record == HitRecord(1, now)
    ensures rec.Some? && !a.allowed ==> a.record == rec.value
    ensures rec.Some? && now - rec.value.start <= RateLimitWindowMs && a.allowed
      ==> a.record == HitRecord(rec.value.count + 1, rec.value.start)
  {
    if rec.None? then Admission(true, HitRecord(1, now))
    else if now - rec.value.start > RateLimitWindowMs then Admission(true, HitRecord(1, now))
    else if rec.value.count >= RateLimitMax then Admission(false, rec.value)
    else Admission(true, rec.value.(count := rec.value.count + 1))
  }

  /** A record the limiter can hold: at least one and at most the maximum. */
  predicate ValidRecord(r: HitRecord) {
    1 <= r.count <= RateLimitMax
  }

  /** The count never leaves 1..20. */
  lemma AdmitKeepsRecordValid(rec: Option<HitRecord>, now: int)
    requires rec.Some? ==> ValidRecord(rec.value)
    ensures ValidRecord(Admit(rec, now).record)
  {
  }

  /** How many of the requests at `times`, in order, are let through. */
  function AllowedCount(rec: Option<HitRecord>, times: seq<int>): nat
    decreases |times|
  {
    if times == [] then 0
    else
      var a := Admit(rec, times[0]);
      (if a.allowed then 1 else 0) + AllowedCount(Some(a.record), times[1..])
  }

  /** Within one window, exactly as many requests pass as the count has room for. */
  lemma {:induction false} BurstInOpenWindow(count: int, start: int, times: seq<int>)
    requires 1 <= count <= RateLimitMax
    requires forall i :: 0 <= i < |times| ==> times[i] - start <= RateLimitWindowMs
    ensures AllowedCount(Some(HitRecord(count, start)), times) == Min(|times|, RateLimitMax - count)
    decreases |times|
  {
    if times != [] {
      var rest := times[1..];
      assert forall i :: 0 <= i < |rest| ==> rest[i] == times[i + 1];
      if count < RateLimitMax {
        BurstInOpenWindow(count + 1, start, rest);
      } else {
        BurstInOpenWindow(count, start, rest);
      }
    }
  }

  /**
   * From an unseen address, a burst whose requests all fall within the
   * window opened by the first one gets exactly `min(n, 20)` requests through.
   */
  lemma FreshBurst(times: seq<int>)
    requires times != []
    requires forall i :: 0 <= i < |times| ==> times[i] - times[0] <= RateLimitWindowMs
    ensures AllowedCount(None, times) == Min(|times|, RateLimitMax)
  {
    var rest := times[1..];
    assert forall i :: 0 <= i < |rest| ==> rest[i] == times[i + 1];
    BurstInOpenWindow(1, times[0], rest);
  }

  /** The module-level `ipHits` map and `rateLimit`. */
  class RateLimiter {
    var ipHits: map<string, HitRecord>

    ghost predicate Valid()
      reads this
    {
      forall ip :: ip in ipHits ==> ValidRecord(ipHits[ip])
    }

    constructor ()
      ensures ipHits == map[]
      ensures Valid()
    {
      ipHits := map[];
    }

    /** `ipHits.get(ip)`. */
    function Lookup(ip: string): (r: Option<HitRecord>)
      reads this
      ensures r.Some? <==> ip in ipHits
      ensures r.Some? ==> r.value == ipHits[ip]
    {
      if ip in ipHits then Some(ipHits[ip]) else None
    }

    method RateLimit(ip: string, now: int) returns (allowed: bool)
      requires Valid()
      modifies this
      ensures Valid()
      ensures allowed == Admit(old(Lookup(ip)), now).allowed
      ensures ipHits == old(ipHits)[ip := Admit(old(Lookup(ip)), now).record]
      ensures forall other :: other != ip ==> Lookup(other) == old(Lookup(other))
    {
      var rec := Lookup(ip);
      if rec.None? {
        ipHits := ipHits[ip := HitRecord(1, now)];
        return true;
      }
      if now - rec.value.start > RateLimitWindowMs {
        ipHits := ipHits[ip := HitRecord(1, now)];
        return true;
      }
      if rec.value.count >= RateLimitMax {
        assert ipHits == ipHits[ip := rec.value];
        return false;
      }
      ipHits := ipHits[ip := rec.value.(count := rec.value.count + 1)];
      return true;
    }
  }

  /** `s.split(',')[0]`: everything before the first comma. */
  function BeforeComma(s: string): (r: string)
    ensures |r| <= |s| && r == s[..|r|]
    ensures forall i :: 0 <= i < |r| ==> r[i] != ','
    ensures |r| < |s| ==> s[|r|] == ','
  {
    if s == [] || s[0] == ',' then [] else [s[0]] + BeforeComma(s[1..])
  }

  /**
   * The client address: the first entry of `x-forwarded-for`, trimmed, or
   * `unknown` when that is empty.
   */
  function ClientIp(forwardedFor: Option<string>): (ip: string)
    ensures ip != []
    ensures forall i :: 0 <= i < |ip| ==> ip[i] != ','
    ensures ip == "unknown" || NoEdgeWhitespace(ip)
    ensures var first := Trim(BeforeComma(if forwardedFor.Some? then forwardedFor.value else ""));
      (first != [] ==> ip == first) && (first == [] ==> ip == "unknown")
  {
    var header := if forwardedFor.Some? then forwardedFor.value else "";
    var first := BeforeComma(header);
    var t := Trim(first);
    TrimKeepsCommaFree(first);
    if t == [] then UnknownClient() else t
  }

  /** The address reported when the header names none. */
  function UnknownClient(): (u: string)
    ensures u == "unknown"
    ensures u != [] && forall i :: 0 <= i < |u| ==> u[i] != ','
  {
    var u := "unknown";
    assert u[0] != ',' && u[1] != ',' && u[2] != ',' && u[3] != ',' && u[4] != ',' && u[5] != ',' && u[6] != ',';
    u
  }

  /** Trimming removes characters from the ends only, so it adds no comma. */
  lemma TrimKeepsCommaFree(s: string)
    requires forall i :: 0 <= i < |s| ==> s[i] != ','
    ensures forall i :: 0 <= i < |Trim(s)| ==> Trim(s)[i] != ','
  {
    TrimParts(s);
    var a := |s| - |TrimStart(s)|;
    assert forall i :: 0 <= i < |Trim(s)| ==> Trim(s)[i] == s[a + i];
  }

  /** An address with no comma and no surrounding whitespace is used as it is. */
  lemma ClientIpOfPlainAddress(addr: string)
    requires addr != [] && NoEdgeWhitespace(addr)
    requires forall i :: 0 <= i < |addr| ==> addr[i] != ','
    ensures ClientIp(Some(addr)) == addr
  {
    BeforeCommaOfCommaFree(addr);
    TrimOfTrimmed(addr);
  }

  lemma {:induction false} BeforeCommaOfCommaFree(s: string)
    requires forall i :: 0 <= i < |s| ==> s[i] != ','
    ensures BeforeComma(s) == s
    decreases |s|
  {
    if s != [] {
      assert forall i :: 0 <= i < |s[1..]| ==> s[1..][i] == s[i + 1];
      BeforeCommaOfCommaFree(s[1..]);
    }
  }

  // --------------------------------------------------------------- schemas

  /** `z.boolean()` on a property. */
  function BoolProp(v: JsonValue, key: string): (r: Option<bool>)
    ensures r.Some? <==> Prop(v, key).Some? && Prop(v, key).value.JBool?
    ensures r.Some? ==> Prop(v, key) == Some(JBool(r.value))
  {
    match Prop(v, key)
    case Some(JBool(b)) => Some(b)
    case _ => None
  }

  /** `z.string().max(500).optional().default('')`: absent is `""`, any other non-string fails. */
  function NotesProp(v: JsonValue): (r: Option<string>)
    ensures Prop(v, "notes").None? ==> r == Some("")
    ensures Prop(v, "notes").Some? ==> (r.Some? <==> Prop(v, "notes").value.JString? && |Prop(v, "notes").value.s| <= MaxNotesChars)
    ensures r.Some? ==> |r.value| <= MaxNotesChars
    ensures r.Some? && Prop(v, "notes").Some? ==> Prop(v, "notes").value == JString(r.value)
  {
    match Prop(v, "notes")
    case None => Some("")
    case Some(JString(s)) => if |s| <= MaxNotesChars then Some(s) else None
    case Some(_) => None
  }

  /** The `StructuredSchema` constraints on an already-typed form. */
  predicate StructuredValid(f: StructuredFormInput) {
    f.projectType in ProjectTypes && 1 <= f.pages <= MaxPages && |f.notes| <= MaxNotesChars
  }

  function ComplexityProp(v: JsonValue): Option<Complexity> {
    var s := StringProp(v, "complexity");
    if s.Some? then ParseComplexity(s.value) else None
  }

  function AiFeaturesProp(v: JsonValue): Option<AiFeatures> {
    var s := StringProp(v, "aiFeatures");
    if s.Some? then ParseAiFeatures(s.value) else None
  }

  function TimelineProp(v: JsonValue): Option<Timeline> {
    var s := StringProp(v, "timeline");
    if s.Some? then ParseTimeline(s.value) else None
  }

  /** `StructuredSchema.safeParse`: the typed form when every field checks, unknown keys dropped. */
  function ParseStructured(v: JsonValue): (r: Option<StructuredFormInput>)
    ensures r.Some? ==> StructuredValid(r.value)
    ensures r.Some? ==> v.JObject? && StringProp(v, "mode") == Some("structured")
    ensures r.Some? ==> (StringProp(v, "projectType") == Some(r.value.projectType)
      && NumberProp(v, "pages") == Some(r.value.pages)
      && StringProp(v, "complexity") == Some(ComplexityName(r.value.complexity))
      && BoolProp(v, "auth") == Some(r.value.auth) && BoolProp(v, "adminPanel") == Some(r.value.adminPanel)
      && StringProp(v, "aiFeatures") == Some(AiFeaturesName(r.value.aiFeatures))
      && StringProp(v, "timeline") == Some(TimelineName(r.value.timeline))
      && NotesProp(v) == Some(r.value.notes))
  {
    var mode := StringProp(v, "mode");
    var projectType := StringProp(v, "projectType");
    var pages := NumberProp(v, "pages");
    var complexity := ComplexityProp(v);
    var auth := BoolProp(v, "auth");
    var adminPanel := BoolProp(v, "adminPanel");
    var aiFeatures := AiFeaturesProp(v);
    var timeline := TimelineProp(v);
    var notes := NotesProp(v);
    if mode == Some("structured") && projectType.Some? && projectType.value in ProjectTypes
      && pages.Some? && 1 <= pages.value <= MaxPages && complexity.Some? && auth.Some? && adminPanel.Some?
      && aiFeatures.Some? && timeline.Some? && notes.Some?
    then
      Some(StructuredFormInput(projectType.value, pages.value, complexity.value, auth.value, adminPanel.value,
        aiFeatures.value, timeline.value, notes.value))
    else None
  }

  /** A form as a structured request body. */
  function FormJson(f: StructuredFormInput): JsonValue {
    JObject(map[
      "mode" := JString("structured"),
      "projectType" := JString(f.projectType),
      "pages" := JNumber(f.pages),
      "complexity" := JString(ComplexityName(f.complexity)),
      "auth" := JBool(f.auth),
      "adminPanel" := JBool(f.adminPanel),
      "aiFeatures" := JString(AiFeaturesName(f.aiFeatures)),
      "timeline" := JString(TimelineName(f.timeline)),
      "notes" := JString(f.notes)])
  }

  /** The members of a form's body, read back. */
  lemma FormJsonStrings(f: StructuredFormInput)
    ensures Prop(FormJson(f), "mode") == Some(JString("structured"))
    ensures Prop(FormJson(f), "projectType") == Some(JString(f.projectType))
    ensures Prop(FormJson(f), "complexity") == Some(JString(ComplexityName(f.complexity)))
    ensures Prop(FormJson(f), "aiFeatures") == Some(JString(AiFeaturesName(f.aiFeatures)))
    ensures Prop(FormJson(f), "timeline") == Some(JString(TimelineName(f.timeline)))
    ensures Prop(FormJson(f), "notes") == Some(JString(f.notes))
  {
  }

  lemma FormJsonOthers(f: StructuredFormInput)
    ensures Prop(FormJson(f), "pages") == Some(JNumber(f.pages))
    ensures Prop(FormJson(f), "auth") == Some(JBool(f.auth))
    ensures Prop(FormJson(f), "adminPanel") == Some(JBool(f.adminPanel))
  {
  }

  /** Every valid form, sent as a body, passes the schema and comes back unchanged. */
  lemma StructuredRoundTrip(f: StructuredFormInput)
    requires StructuredValid(f)
    ensures ParseStructured(FormJson(f)) == Some(f)
  {
    var v := FormJson(f);
    FormJsonStrings(f);
    FormJsonOthers(f);
    EnumNamesRoundTrip(f.complexity, f.aiFeatures, f.timeline);
    assert StringProp(v, "mode") == Some("structured");
    assert StringProp(v, "projectType") == Some(f.projectType);
    assert NumberProp(v, "pages") == Some(f.pages);
    assert ComplexityProp(v) == Some(f.complexity);
    assert BoolProp(v, "auth") == Some(f.auth) && BoolProp(v, "adminPanel") == Some(f.adminPanel);
    assert AiFeaturesProp(v) == Some(f.aiFeatures);
    assert TimelineProp(v) == Some(f.timeline);
    assert NotesProp(v) == Some(f.notes);
  }

  /** `FreeformSchema.safeParse`: the description, when it is a string of 5 to 2000 characters. */
  function ParseFreeform(v: JsonValue): (r: Option<string>)
    ensures r.Some? ==> StringProp(v, "mode") == Some("freeform") && MinDescChars <= |r.value| <= MaxDescChars
    ensures r.Some? ==> StringProp(v, "description") == r
    ensures (StringProp(v, "mode") == Some("freeform") && StringProp(v, "description").Some?
      && MinDescChars <= |StringProp(v, "description").value| <= MaxDescChars) ==> r.Some?
  {
    var mode := StringProp(v, "mode");
    var d := StringProp(v, "description");
    if mode == Some("freeform") && d.Some? && MinDescChars <= |d.value| <= MaxDescChars then d else None
  }

  datatype RequestBody = Freeform(description: string) | Structured(form: StructuredFormInput)

  /** `UnifiedSchema`: the free-form schema is tried first, then the structured one. */
  function ParseUnified(v: JsonValue): (r: Option<RequestBody>)
    ensures r.Some? && r.value.Structured? <==> ParseStructured(v).Some?
    ensures r.Some? && r.value.Structured? ==> r.value.form == ParseStructured(v).value
    ensures r.Some? && r.value.Freeform? <==> ParseFreeform(v).Some?
  {
    var d := ParseFreeform(v);
    if d.Some? then Some(Freeform(d.value))
    else
      var f := ParseStructured(v);
      if f.Some? then Some(Structured(f.value)) else None
  }

  // -------------------------------------------------------------- sanitiser

  /**
   * The `normalized` block: each field of the language model's reply that is outside
   * its enum or range is replaced by a default. A `notes` value that is
   * truthy but not a string has no `slice` of a string, which throws; that is
   * the `Err` case, answered with a server error.
   */
  function Sanitize(reply: JsonValue): (r: Result<StructuredFormInput, string>)
    ensures r.Ok? ==> StructuredValid(r.value)
    ensures r.Err? <==> TruthyProp(reply, "notes") && !Prop(reply, "notes").value.JString?
    ensures r.Ok? ==> ((r.value.auth <==> TruthyProp(reply, "auth"))
      && (r.value.adminPanel <==> TruthyProp(reply, "adminPanel")))
  {
    var form := SanitizedFields(reply);
    if TruthyProp(reply, "notes") then
      match Prop(reply, "notes").value
      case JString(s) => Ok(form.(notes := s[..Min(|s|, MaxNotesChars)]))
      case _ => Err("notes.slice is not a function")
    else Ok(form)
  }

  /** Every field but `notes` after the defaults, with `notes` still empty. */
  function SanitizedFields(reply: JsonValue): (form: StructuredFormInput)
    ensures form.projectType in ProjectTypes && 1 <= form.pages <= MaxPages && form.notes == ""
    ensures form.auth == TruthyProp(reply, "auth") && form.adminPanel == TruthyProp(reply, "adminPanel")
  {
    var pt := StringProp(reply, "projectType");
    var projectType := if pt.Some? && pt.value != "" && pt.value in ProjectTypes then pt.value else "web-app";
    var p := NumberProp(reply, "pages");
    var pages := if p.Some? && p.value > 0 then Min(p.value, MaxPages) else 3;
    var c := ComplexityProp(reply);
    var complexity := if c.Some? then c.value else Medium;
    var a := AiFeaturesProp(reply);
    var aiFeatures := if a.Some? then a.value else NoAi;
    var t := TimelineProp(reply);
    var timeline := if t.Some? then t.value else Normal;
    StructuredFormInput(projectType, pages, complexity, TruthyProp(reply, "auth"),
      TruthyProp(reply, "adminPanel"), aiFeatures, timeline, "")
  }

  /**
   * The defaults: a value outside its enum, or a `pages` that is not a
   * positive number, is replaced; a value inside is kept, and `pages` is
   * clamped to 200. Notes keep their first 500 characters.
   */
  lemma SanitizeFieldRules(reply: JsonValue)
    requires Sanitize(reply).Ok?
    ensures var f := Sanitize(reply).value;
      (f.projectType == (if StringProp(reply, "projectType").Some? && StringProp(reply, "projectType").value in ProjectTypes
                         then StringProp(reply, "projectType").value else "web-app"))
      && (NumberProp(reply, "pages").Some? && NumberProp(reply, "pages").value > 0
          ==> f.pages == Min(NumberProp(reply, "pages").value, MaxPages))
      && (!(NumberProp(reply, "pages").Some? && NumberProp(reply, "pages").value > 0) ==> f.pages == 3)
      && (ComplexityProp(reply).None? ==> f.complexity == Medium)
      && (ComplexityProp(reply).Some? ==> f.complexity == ComplexityProp(reply).value)
      && (AiFeaturesProp(reply).None? ==> f.aiFeatures == NoAi)
      && (AiFeaturesProp(reply).Some? ==> f.aiFeatures == AiFeaturesProp(reply).value)
      && (TimelineProp(reply).None? ==> f.timeline == Normal)
      && (TimelineProp(reply).Some? ==> f.timeline == TimelineProp(reply).value)
      && (TruthyProp(reply, "notes") ==>
            StringProp(reply, "notes").Some?
            && f.notes == StringProp(reply, "notes").value[..Min(|StringProp(reply, "notes").value|, MaxNotesChars)])
      && (!TruthyProp(reply, "notes") ==> f.notes == "")
  {
  }

  /** A reply that is already a valid form is left exactly as it is. */
  lemma SanitizeIdentity(f: StructuredFormInput)
    requires StructuredValid(f)
    ensures Sanitize(FormJson(f)) == Ok(f)
  {
    var v := FormJson(f);
    FormJsonStrings(f);
    FormJsonOthers(f);
    EnumNamesRoundTrip(f.complexity, f.aiFeatures, f.timeline);
    assert StringProp(v, "projectType") == Some(f.projectType);
    assert NumberProp(v, "pages") == Some(f.pages);
    assert ComplexityProp(v) == Some(f.complexity);
    assert AiFeaturesProp(v) == Some(f.aiFeatures);
    assert TimelineProp(v) == Some(f.timeline);
    assert TruthyProp(v, "auth") == f.auth && TruthyProp(v, "adminPanel") == f.adminPanel;
    assert Prop(v, "notes") == Some(JString(f.notes));
    assert f.notes[..Min(|f.notes|, MaxNotesChars)] == f.notes;
  }

  /** Sanitising twice is sanitising once. */
  lemma SanitizeIdempotent(reply: JsonValue)
    requires Sanitize(reply).Ok?
    ensures Sanitize(FormJson(Sanitize(reply).value)) == Sanitize(reply)
  {
    SanitizeIdentity(Sanitize(reply).value);
  }

  // ------------------------------------------------------------------ POST

  /** What the language-model step produced: the call threw, or its reply parsed (or not). */
  datatype AiOutcome = AiCallFailed | AiReplied(parsed: Option<JsonValue>)

  datatype Response =
    | Failure(status: int, error: string)
    | RuleEstimate(estimate: EstimateResult)
    | AiEstimate(inputs: StructuredFormInput, estimate: EstimateResult)

  /**
   * Everything `POST` does after the origin check and the rate limiter: the
   * size guard, the JSON and schema checks, the rule path and the model path.
   * `raw` is `JSON.parse(bodyText)`, `None` when that throws.
   */
  function Handle(bodyText: string, raw: Option<JsonValue>, apiKeyConfigured: bool, ai: AiOutcome): Response {
    if |bodyText| > MaxBodyChars then Failure(413, "Payload too large")
    else if raw.None? || !Truthy(raw.value) then Failure(400, "Invalid JSON")
    else
      var body := ParseUnified(raw.value);
      if body.None? then Failure(400, "Validation failed")
      else if body.value.Structured? then RuleEstimate(Estimate(body.value.form))
      else if !apiKeyConfigured then Failure(500, "OPENAI_API_KEY not configured")
      else if ai.AiCallFailed? then Failure(500, "Server error")
      else if ai.parsed.None? || !Truthy(ai.parsed.value) then Failure(502, "AI parsing failed")
      else
        var normalized := Sanitize(ai.parsed.value);
        if normalized.Err? then Failure(500, "Server error")
        else AiEstimate(normalized.value, Estimate(normalized.value))
  }

  /**
   * The rule path is taken exactly when the body is within the size limit
   * and passes the structured schema; its estimate is the engine's on the
   * validated form.
   */
  lemma RuleSourceOnlyForValidForms(bodyText: string, raw: Option<JsonValue>, apiKeyConfigured: bool, ai: AiOutcome)
    ensures Handle(bodyText, raw, apiKeyConfigured, ai).RuleEstimate?
      <==> |bodyText| <= MaxBodyChars && raw.Some? && ParseStructured(raw.value).Some?
    ensures Handle(bodyText, raw, apiKeyConfigured, ai).RuleEstimate? ==>
      var f := ParseStructured(raw.value).value;
      StructuredValid(f) && StringProp(raw.value, "mode") == Some("structured")
      && Handle(bodyText, raw, apiKeyConfigured, ai).estimate == Estimate(f)
  {
    if raw.Some? && ParseStructured(raw.value).Some? {
      assert raw.value.JObject?;
      assert ParseFreeform(raw.value).None?;
    }
  }

  /** The language-model path always prices a valid form, and reports the form it priced. */
  lemma AiSourceUsesSanitisedForm(bodyText: string, raw: Option<JsonValue>, apiKeyConfigured: bool, ai: AiOutcome)
    ensures var resp := Handle(bodyText, raw, apiKeyConfigured, ai);
      resp.AiEstimate? ==> (StructuredValid(resp.inputs) && resp.estimate == Estimate(resp.inputs)
        && apiKeyConfigured && ai.AiReplied? && ai.parsed.Some? && Sanitize(ai.parsed.value) == Ok(resp.inputs)
        && raw.Some? && ParseFreeform(raw.value).Some?)
  {
  }

  /** Every failure is one of the route's statuses. */
  lemma HandleStatuses(bodyText: string, raw: Option<JsonValue>, apiKeyConfigured: bool, ai: AiOutcome)
    ensures var resp := Handle(bodyText, raw, apiKeyConfigured, ai);
      resp.Failure? ==> resp.status in {400, 413, 500, 502}
    ensures |bodyText| > MaxBodyChars ==> Handle(bodyText, raw, apiKeyConfigured, ai) == Failure(413, "Payload too large")
  {
  }

  /**
   * `POST`: origin check, then the rate limiter keyed by the client address
   * (which counts the request whatever follows), then the checks of `Handle`
   * in order. `forwardedFor` is the `x-forwarded-for` header, if any.
   */
  method Post(limiter: RateLimiter, originAllowed: bool, forwardedFor: Option<string>, now: int,
              bodyText: string, raw: Option<JsonValue>, apiKeyConfigured: bool, ai: AiOutcome)
    returns (resp: Response)
    requires limiter.Valid()
    modifies limiter
    ensures limiter.Valid()
    ensures !originAllowed ==> resp == Failure(403, "Origin not allowed") && limiter.ipHits == old(limiter.ipHits)
    ensures var ip := ClientIp(forwardedFor);
      originAllowed ==> limiter.ipHits == old(limiter.ipHits)[ip := Admit(old(limiter.Lookup(ip)), now).record]
    ensures var ip := ClientIp(forwardedFor);
      originAllowed && !Admit(old(limiter.Lookup(ip)), now).allowed ==> resp == Failure(429, "Too Many Requests")
    ensures var ip := ClientIp(forwardedFor);
      originAllowed && Admit(old(limiter.Lookup(ip)), now).allowed ==> resp == Handle(bodyText, raw, apiKeyConfigured, ai)
  {
    if !originAllowed {
      return Failure(403, "Origin not allowed");
    }
    var ip := ClientIp(forwardedFor);
    var allowed := limiter.RateLimit(ip, now);
    if !allowed {
      return Failure(429, "Too Many Requests");
    }
    if |bodyText| > MaxBodyChars {
      return Failure(413, "Payload too large");
    }
    if raw.None? || !Truthy(raw.value) {
      return Failure(400, "Invalid JSON");
    }
    var body := ParseUnified(raw.value);
    if body.None? {
      return Failure(400, "Validation failed");
    }
    if body.value.Structured? {
      var estimate := ComputeRuleEstimate(body.value.form);
      return RuleEstimate(estimate);
    }
    if !apiKeyConfigured {
      return Failure(500, "OPENAI_API_KEY not configured");
    }
    if ai.AiCallFailed? {
      return Failure(500, "Server error");
    }
    if ai.parsed.None? || !Truthy(ai.parsed.value) {
      return Failure(502, "AI parsing failed");
    }
    var normalized := Sanitize(ai.parsed.value);
    if normalized.Err? {
      return Failure(500, "Server error");
    }
    var estimate := ComputeRuleEstimate(normalized.value);
    return AiEstimate(normalized.value, estimate);
  }
}
