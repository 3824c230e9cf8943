# A verified model of the estimator, blog and resume logic of tanuson

This project models the part of the portfolio site that computes something. The modelled code is TypeScript from the repository flagrantii/tanuson. The model is written in Dafny and verified.

- **Pricing engine.** `computeRuleEstimate`, in `lib/estimation.ts`, turns a structured project form into an estimate: a price range, hours, weeks, a breakdown ledger, assumptions and suggestions. It is modelled as an imperative method, with the same step-by-step updates of `base`, `hours`, `timelineWeeks` and the pushed arrays. That method is proved equal to a closed-form function `Estimate`, and the engine's promises are proved about that function.
- **Estimate route.** `app/api/estimate/route.ts` has four modelled parts:
  - the per-address rate limiter, a class over the `ipHits` map;
  - the client address taken from `x-forwarded-for`;
  - the structured request schema, as a parse function over JSON values;
  - the sanitiser that clamps a language-model reply into a valid form, and the order of checks in `POST`.
- **Blog snippet.** From `app/blog/page.tsx`: `extractTextFromHtml`, modelled as functions, one per replace step; and `buildSnippet`, modelled as methods that collect candidates and cut the text.
- **Estimator widget.** From `components/Estimator.tsx`:
  - the pages input as a state machine (edit and blur);
  - `updateForm` as a record update;
  - the inline suggestion rules;
  - the fallback in `calculate`.
  
  The widget's state is a class whose methods are the event handlers.
- **Resume selection.** From `app/resume/page.tsx`: the seven section flags, with toggle, toggle-all and presets, the derived checks, the included count and the print list. The page is a class over a total map.

Files:
- `wrappers.dfy`: `Option` and `Result`.
- `strings.dfy`: JavaScript whitespace, ASCII case folding, case-insensitive search, `lastIndexOf` and the trims.
- `numerals.dfy`: `Number#toString` and base-10 `parseInt` on integers.
- `json.dfy`: parsed JSON values, property reads and truthiness.
- `estimation.dfy`: the engine.
- `estimation_props.dfy`: its properties.
- `route.dfy`: the route.
- `blog.dfy`: the blog snippet.
- `estimator.dfy`: the widget.
- `resume.dfy`: the resume page.

Arithmetic is exact:
- Every `Math.round(x * m)` of the engine has `x >= 0`, so it becomes `RoundRatio`: the nearest integer, with halves rounded up.
- Hours are kept in tenths, so the 2.2 hours per page becomes 22.

I/O is passed in as parameters. That covers:
- the origin decision;
- the client header;
- the clock;
- the body text and its parse;
- whether the API key is configured;
- the language-model outcome;
- the outcome of `fetch` in the widget.

## Model

| member | source | states |
|---|---|---|
| Estimation.ParseComplexity | lib/estimation.ts:5 | a name parses exactly when it is one of `low`, `medium`, `high`, and parsing inverts the naming |
| Estimation.ParseAiFeatures | lib/estimation.ts:8 | a name parses exactly when it is one of `none`, `basic`, `advanced`, and parsing inverts the naming |
| Estimation.ParseTimeline | lib/estimation.ts:9 | a name parses exactly when it is one of `flexible`, `normal`, `rushed`, and parsing inverts the naming |
| Estimation.EnumNamesRoundTrip | lib/estimation.ts:5-9 | every enum value's name parses back to that value |
| Estimation.TypeEntry | lib/estimation.ts:33-40 | a known type gets its table entry; any other type gets the default 1000 / 20 h; every entry is a multiple of 100 of at least 400, with hours equal to base / 50 |
| Estimation.RoundRatio | lib/estimation.ts:72 | the result is the nearest integer to num/den, with halves rounded up (what `Math.round` does on non-negative values) |
| Estimation.PriceScope | lib/estimation.ts:40-55 | after the type and pages steps: base is the type base plus 120 per extra page; hours are the type hours plus 2.2 per extra page; the ledger is the base line, then the pages line when `pages > 0` |
| Estimation.AddFeatures | lib/estimation.ts:61-68 | adds exactly the auth, admin and AI amounts and hours, and appends their lines in source order |
| Estimation.ApplyComplexity | lib/estimation.ts:71-74 | base becomes the rounded complexity product; the uplift line is appended only when the delta is non-zero |
| Estimation.ApplyTimeline | lib/estimation.ts:77-85 | base becomes the rounded timeline product; weeks are adjusted by the timeline; the adjustment line is appended only when the multiplier is not 1 |
| Estimation.ComputeRuleEstimate | lib/estimation.ts:26-105 | the imperative engine returns exactly `Estimate(input)`; its ledger sums to the final base; min and max are 88% and 112% of that sum |
| Estimation.BuildAssumptions | lib/estimation.ts:91-97 | the pushed assumption list equals the specification list |
| Estimation.BuildSuggestions | lib/estimation.ts:99-102 | the pushed suggestion list equals the specification list |
| Estimation.LedgerTotalConcat | lib/estimation.ts:28 | the ledger total of two consecutive runs of lines is the sum of their totals |
| Estimation.LedgerTotalWhen | lib/estimation.ts:74 | a conditionally pushed line adds its amount exactly when it is pushed |
| Estimation.FeatureLinesTotal | lib/estimation.ts:61-68 | the feature lines sum to the feature amount |
| Estimation.LedgerBalances | lib/estimation.ts:41-83 | the breakdown amounts sum to the final base |
| Estimation.ScalePercentIdentity | lib/estimation.ts:78 | a multiplier of 1 leaves the base unchanged |
| EstimationProperties.RoundRatioMonotone | lib/estimation.ts:72 | rounding a ratio is monotone in the numerator |
| EstimationProperties.ScalePercentMonotone | lib/estimation.ts:72 | a rounded product is monotone in the value |
| EstimationProperties.ScalePercentFactorMonotone | lib/estimation.ts:82 | a rounded product is monotone in the multiplier |
| EstimationProperties.ScalePercentExact | lib/estimation.ts:72 | when the exact product is whole, rounding does not change it |
| EstimationProperties.RoundRatioExact | lib/estimation.ts:72 | a whole number of hundredths rounds to itself |
| EstimationProperties.ScalePercentUp | lib/estimation.ts:72 | a multiplier of at least 1 never lowers the value |
| EstimationProperties.ScalePercentDown | lib/estimation.ts:82 | a multiplier of at most 1 never raises the value |
| EstimationProperties.ScaleMultipleOf20 | lib/estimation.ts:72 | a multiple of 20 times a multiple of 5 percent is exact |
| EstimationProperties.RangeAround | lib/estimation.ts:88-89 | for a base of at least 5: min <= base <= max, and min < max |
| EstimationProperties.SubtotalMultipleOf20 | lib/estimation.ts:41-68 | the pre-complexity subtotal is a multiple of 20 and at least 400 |
| EstimationProperties.ComplexityStepIsExact | lib/estimation.ts:72-73 | the 1.35 and 1.75 products are exact, so the uplift is exactly (m - 1) times the subtotal |
| EstimationProperties.FinalBaseAtLeast380 | lib/estimation.ts:72-82 | complexity never lowers the subtotal, and the final base is at least 380 |
| EstimationProperties.RangeBrackets | lib/estimation.ts:72-89 | `0 <= min <= base <= max` and `min < max` for every input |
| EstimationProperties.BaseLineFirst | lib/estimation.ts:33-43 | the first breakdown line is `Base (<type>)` with the table amount; an unknown type is priced at 1000 |
| EstimationProperties.NotPagesLabel | lib/estimation.ts:54 | a label that differs from `Additional Pages (` in length, first or third character is not a pages line |
| EstimationProperties.LabelsNotPagesLabels | lib/estimation.ts:43-83 | the base, complexity and timeline lines are never pages lines |
| EstimationProperties.FeatureLinesNoPagesLine | lib/estimation.ts:62-68 | no feature line is a pages line |
| EstimationProperties.PagesLineRule | lib/estimation.ts:46-55 | with `pages > 0` the second line is `Additional Pages (n)` of amount 120·n, with n = max(0, pages - 3), even when n = 0; with `pages <= 0` no pages line appears |
| EstimationProperties.PagesLinePresent | lib/estimation.ts:46-55 | with `pages > 0` the line after the base line is the pages line |
| EstimationProperties.PagesLineAbsent | lib/estimation.ts:46-55 | with `pages <= 0` none of the lines is a pages line |
| EstimationProperties.ComplexityLineRule | lib/estimation.ts:58-74 | the uplift line appears exactly when complexity is not low, and then its delta is positive; low leaves the subtotal unchanged |
| EstimationProperties.UpliftSign | lib/estimation.ts:70-74 | on a positive subtotal the uplift is zero exactly at 100%, positive above it, and at 100% the subtotal is kept |
| EstimationProperties.TimelineLineRule | lib/estimation.ts:78-83 | the adjustment line appears exactly when the timeline is not normal; normal leaves the base unchanged; rushed raises it; flexible lowers it |
| EstimationProperties.TimelineStep | lib/estimation.ts:79-82 | for a base of at least 400, 1.25 raises it, 0.95 lowers it and 1 keeps it |
| EstimationProperties.BreakdownLength | lib/estimation.ts:43-83 | the number of breakdown lines is 1 plus one per condition that pushes a line |
| EstimationProperties.WeeksRule | lib/estimation.ts:77-104 | weeks are round(hours / 15) of the unrounded hours; rushed gives max(1, round(w·0.75)) and at most max(1, w); flexible gives round(w·1.1) >= w; normal keeps w; reported hours are round(hours) |
| EstimationProperties.AssumptionRules | lib/estimation.ts:91-97 | the three baseline assumptions come first in order; the admin caveat is present iff `adminPanel`, at index 3; the AI caveat is present iff AI is not `none`, and comes last |
| EstimationProperties.SuggestionsDistinct | lib/estimation.ts:100-102 | the three suggestion strings are distinct |
| EstimationProperties.SuggestionRules | lib/estimation.ts:99-102 | the auth nudge appears iff `!auth`, and first; phasing iff `pages > 10`; the cost nudge iff rushed, and last; the length is the number of conditions that hold, so no nudge repeats and the list is empty exactly when none applies |
| EstimationProperties.PriceMonotone | lib/estimation.ts:71-89 | a larger subtotal with multipliers no smaller never gives a lower base, min or max |
| EstimationProperties.AdjustWeeksMonotone | lib/estimation.ts:84-85 | the week adjustment is monotone |
| EstimationProperties.MorePagesNeverCheaper | lib/estimation.ts:46-104 | raising `pages` with every other field fixed never lowers min, max, hours or weeks |
| EstimationProperties.MoreScopeNeverCheaper | lib/estimation.ts:58-72 | adding auth, adding the admin panel, raising the complexity or raising the AI tier, one at a time or together, never lowers min or max |
| EstimationProperties.LandingExample | lib/estimation.ts:26-105 | landing / 3 pages / low / nothing / normal gives 528–672 USD, 12 h, 1 week, the two lines, the baseline assumptions and the auth nudge |
| EstimationProperties.WebAppExample | lib/estimation.ts:26-105 | web-app / 8 / medium / auth / admin / advanced AI / rushed gives 6385–8127 USD, 85 h, 5 weeks, with the full ledger, assumptions and suggestions |
| Estimation.Estimate | lib/estimation.ts:26-105 | the closed-form estimate; `ComputeRuleEstimate` computes it and the `EstimationProperties` lemmas state its promises |
| Estimation.Breakdown | lib/estimation.ts:41-83 | the ledger; `LedgerBalances`, `BreakdownLength` and the line rules state it |
| Estimation.Assumptions | lib/estimation.ts:91-97 | the assumption list; `AssumptionRules` states it |
| Estimation.Suggestions | lib/estimation.ts:99-102 | the suggestion list; `SuggestionRules` states it |
| EstimateRoute.Admit | app/api/estimate/route.ts:16-24 | allowed iff the address is unseen, or its window has expired (strictly more than 600000 ms), or its count is below 20; unseen or expired resets to {1, now}; a rejection keeps the record; otherwise count + 1 with the same start |
| EstimateRoute.AdmitKeepsRecordValid | app/api/estimate/route.ts:19-23 | the count of a record stays between 1 and 20 |
| EstimateRoute.BurstInOpenWindow | app/api/estimate/route.ts:20-23 | within one open window, a burst admits exactly min(requests, 20 - count) |
| EstimateRoute.FreshBurst | app/api/estimate/route.ts:17-23 | for a new address, a burst within one window admits exactly min(requests, 20) |
| EstimateRoute.RateLimiter.RateLimit | app/api/estimate/route.ts:16-24 | the answer is the admission decision; only the caller's entry changes, to the admitted record; the count bound is kept |
| EstimateRoute.RateLimiter.constructor | app/api/estimate/route.ts:14 | the limiter starts with no entry, which meets the count bound |
| EstimateRoute.BeforeComma | app/api/estimate/route.ts:65 | `split(',')[0]` is the longest comma-free prefix |
| EstimateRoute.ClientIp | app/api/estimate/route.ts:65 | the address is the trimmed part of the `x-forwarded-for` header (`""` when absent) before its first comma, or `unknown` when that is empty; so it is never empty, has no comma and has no surrounding whitespace |
| EstimateRoute.ClientIpOfPlainAddress | app/api/estimate/route.ts:65 | a single address without commas or surrounding whitespace is used as it is |
| EstimateRoute.NotesProp | app/api/estimate/route.ts:41 | absent notes default to `""`; present notes pass exactly when they are a string of at most 500 characters, and then the result is that string |
| EstimateRoute.ParseStructured | app/api/estimate/route.ts:32-42 | an accepted body has mode `structured`, a listed type, an integer `pages` in [1, 200], valid enums, booleans and notes of at most 500 characters, and the form holds exactly those values |
| EstimateRoute.StructuredValid | app/api/estimate/route.ts:32-42 | the schema's constraints on a typed form: a listed type, `pages` in [1, 200] and notes of at most 500 characters; `StructuredRoundTrip` and `RuleSourceOnlyForValidForms` state what it admits |
| EstimateRoute.StructuredRoundTrip | app/api/estimate/route.ts:32-42 | every valid form, sent as a body, parses back to itself |
| EstimateRoute.ParseFreeform | app/api/estimate/route.ts:28-31 | accepted exactly when mode is `freeform` and the description is a string of 5 to 2000 characters |
| EstimateRoute.ParseUnified | app/api/estimate/route.ts:43 | the free-form schema is tried first; the structured result is taken exactly when the structured schema accepts |
| EstimateRoute.Sanitize | app/api/estimate/route.ts:115-124 | every sanitised form is valid; sanitising fails exactly when `notes` is truthy but not a string; auth and admin are the truthiness of the reply's fields |
| EstimateRoute.SanitizedFields | app/api/estimate/route.ts:116-122 | the defaulted type is listed and the clamped pages lie in [1, 200] |
| EstimateRoute.SanitizeFieldRules | app/api/estimate/route.ts:116-123 | an out-of-enum type becomes `web-app`; a positive pages value becomes min(p, 200) and anything else 3; invalid enums become medium / none / normal and valid ones are kept; truthy notes are a string and keep its first min(length, 500) characters; falsy or absent notes become `""` |
| EstimateRoute.SanitizeIdentity | app/api/estimate/route.ts:115-124 | a reply that is already a valid form is left unchanged |
| EstimateRoute.SanitizeIdempotent | app/api/estimate/route.ts:115-124 | sanitising a sanitised form changes nothing |
| EstimateRoute.RuleSourceOnlyForValidForms | app/api/estimate/route.ts:32-87 | the rule estimate is returned iff the body is at most 16·1024 characters and passes the structured schema; it is the engine's estimate of that valid form |
| EstimateRoute.AiSourceUsesSanitisedForm | app/api/estimate/route.ts:89-127 | a model-path answer needs a configured key, a free-form body and a parsed reply; it reports and prices the sanitised form, which is valid |
| EstimateRoute.HandleStatuses | app/api/estimate/route.ts:72-130 | every failure after the limiter is 400, 413, 500 or 502; an oversized body is always 413 |
| EstimateRoute.Handle | app/api/estimate/route.ts:70-130 | the checks after the limiter; `RuleSourceOnlyForValidForms`, `AiSourceUsesSanitisedForm` and `HandleStatuses` state its answers |
| EstimateRoute.Post | app/api/estimate/route.ts:55-132 | a refused origin gives 403 and leaves the limiter alone; otherwise the limiter records the request under `ClientIp` of the header; a rejection gives 429; an admitted request gets the answer of `Handle` |
| Strings.NoDoubleWhitespaceInfix | app/blog/page.tsx:50-51 | trimming a text without double whitespace keeps that property |
| Strings.Lower | components/Estimator.tsx:54-55 | ASCII lower-casing keeps the length, leaves no capital letter and changes only capitals, each to its lower-case letter |
| Strings.FindIgnoreCase | components/Estimator.tsx:54-55 | the first case-insensitive occurrence of a pattern, or none when there is none |
| Strings.LastIndexOf | app/blog/page.tsx:72-73 | `lastIndexOf`: an occurrence with none after it, or -1 when there is none |
| Strings.TrimStart | app/blog/page.tsx:51 | a suffix of the text; everything dropped is whitespace, and the result does not start with whitespace |
| Strings.TrimEnd | app/blog/page.tsx:51 | a prefix of the text; everything dropped is whitespace, and the result does not end with whitespace |
| Strings.Trim | app/blog/page.tsx:51 | an infix of the text with only whitespace before and after it, and no whitespace at either of its own ends |
| Strings.TrimOfTrimmed | app/api/estimate/route.ts:65 | trimming a text without edge whitespace changes nothing |
| Strings.NotFoundByFirstTwo | app/blog/page.tsx:41-49 | a pattern whose first two characters never appear together is not found |
| Strings.MatchAtOfExact | app/blog/page.tsx:44-49 | an exact occurrence of a pattern without capitals also matches ignoring case |
| Strings.LowerIdempotent | components/Estimator.tsx:54-55 | lower-casing twice is lower-casing once |
| Strings.FindAcross | app/blog/page.tsx:41-49 | when the prefix has no match and the middle is made of characters foreign to the pattern, the first match of the whole is the first match of the suffix, shifted |
| Strings.TrimParts | app/blog/page.tsx:51 | `trimEnd(trimStart(s))` is an infix of `s` with only whitespace around it |
| Strings.TrimInfix | app/blog/page.tsx:51 | the trimmed text is the infix of `s` that starts where leading whitespace ends |
| Blog.RemoveBlocks | app/blog/page.tsx:41-42 | a text without the opening tag, ignoring case, is unchanged; the result is no longer; for an opening tag without a space, no opening tag followed later by a closing tag is left |
| Blog.BlockSpaceNoBlock | app/blog/page.tsx:41-42 | a prefix without the opening tag, a space, then a text without blocks has no blocks |
| Blog.NoBlockShifted | app/blog/page.tsx:41-42 | a text whose first opening tag is that of a block-free suffix, shifted, has no blocks |
| Blog.FindChar | app/blog/page.tsx:43 | the first occurrence of a character, or none |
| Blog.StripTags | app/blog/page.tsx:43 | no `<` is followed later by a `>` except as `<>`, so no `<[^>]+>` match is left; a text without `>` is unchanged; a first character that does not open a tag is kept |
| Blog.KeptFirst | app/blog/page.tsx:43 | a first character that does not open a tag is kept before the stripped rest, which then also has no tag |
| Blog.ReplaceAll | app/blog/page.tsx:44-49 | a text without the pattern, ignoring case, is unchanged; when the replacement cannot be part of a match, no match is left |
| Blog.CollapseWhitespace | app/blog/page.tsx:50 | no double whitespace and no whitespace other than spaces; empty exactly when the text is; whitespace at each end exactly when the text has it there |
| Blog.CollapseKeepsText | app/blog/page.tsx:50 | collapsing keeps every character that is not whitespace, in order |
| Blog.CollapseOfCollapsed | app/blog/page.tsx:50 | a text without double whitespace and with only spaces is unchanged |
| Blog.CollapsedCons | app/blog/page.tsx:50 | a character in front of a collapsed text keeps it collapsed when a space is not followed by whitespace |
| Blog.CollapsedTail | app/blog/page.tsx:50 | such a text stays so without its first character, and a leading whitespace character is a lone space |
| Blog.CollapseIdempotent | app/blog/page.tsx:50 | collapsing twice is collapsing once |
| Blog.ReplaceAllKeepsAbsent | app/blog/page.tsx:44-49 | replacing a pattern by a text that cannot be part of a match of another pattern adds no match of it |
| Blog.AbsentAround | app/blog/page.tsx:44-49 | a prefix of a text without a match, then such a replacement, then a tail without a match, has no match |
| Blog.NoMatchInSuffix | app/blog/page.tsx:44-49 | a suffix of a text without a match has none |
| Blog.NoMatchIsNone | app/blog/page.tsx:44-49 | the search finds nothing exactly when the pattern matches at no index |
| Blog.NoMatchKept | app/blog/page.tsx:44-49 | replacing one pattern by a text foreign to another pattern leaves no match of the other where there was none |
| Blog.NoMatchKeptAt | app/blog/page.tsx:44-49 | the same for the text before the first match, the replacement and the replaced rest |
| Blog.DecodeEntities | app/blog/page.tsx:44-49 | the entity steps in source order; `DecodedHasNoEscapes`, `EscapedTagSurvives` and `AmpDecodedBeforeLt` state what they give |
| Blog.DecodedHasNoEscapes | app/blog/page.tsx:46-49 | after decoding, no `&lt;`, `&gt;`, `&quot;` or `&#39;` is left in any case |
| Blog.NonWhitespaceOfTrimStart | app/blog/page.tsx:51 | trimming the start drops no character that is not whitespace |
| Blog.NonWhitespaceConcat | app/blog/page.tsx:50-51 | the non-whitespace characters of a concatenation are those of each part, in order |
| Blog.NonWhitespaceOfBlank | app/blog/page.tsx:50-51 | a text of whitespace only has no non-whitespace character |
| Blog.NonWhitespaceOfTrimEnd | app/blog/page.tsx:51 | trimming the end drops no character that is not whitespace |
| Blog.NonWhitespaceOfTrim | app/blog/page.tsx:51 | trimming drops no character that is not whitespace |
| Blog.AllWhitespaceWhenTrimmedAway | app/blog/page.tsx:50-51 | a text that `trimStart` empties is all whitespace |
| Blog.ExtractTextFromHtml | app/blog/page.tsx:39-52 | the cleaned text has no edge whitespace, no double whitespace and only spaces as whitespace |
| Blog.ExtractKeepsText | app/blog/page.tsx:39-52 | the cleaned text keeps every non-whitespace character of the decoded text, in order |
| Blog.NoMarkupUntouched | app/blog/page.tsx:41-43 | a text without `<` or `>` passes the script, style and tag stages unchanged |
| Blog.EntityFree | app/blog/page.tsx:48-49 | a text without `&` passes the last two entity steps unchanged |
| Blog.PlainTextUnchanged | app/blog/page.tsx:50-51 | a text without whitespace passes collapsing and trimming unchanged |
| Blog.EscapedTagSurvives | app/blog/page.tsx:43-49 | tags are stripped before entities are decoded, so `&lt;b&gt;` comes out as `<b>` |
| Blog.AmpDecodedBeforeLt | app/blog/page.tsx:45-46 | `&amp;` is decoded before `&lt;`, so `&amp;lt;` comes out as `<` |
| Blog.FirstNonEmpty | app/blog/page.tsx:62 | `find(Boolean) \|\| ''`: empty exactly when every candidate is empty, else the candidate at the first index whose entry is non-empty |
| Blog.SourceText | app/blog/page.tsx:55-62 | the first non-empty of the snippet, description, encoded snippet, cleaned encoded content and content, each in that order of priority; empty exactly when all are |
| Blog.Window | app/blog/page.tsx:71 | the first min(length, 400) characters |
| Blog.CutIndex | app/blog/page.tsx:72-74 | the cut lies between 300 and 400 and inside the text |
| Blog.BuildSnippet | app/blog/page.tsx:54-77 | the imperative builder returns exactly `Snippet(item)` |
| Blog.CollectCandidates | app/blog/page.tsx:55-60 | the pushes produce exactly the candidate list |
| Blog.CutText | app/blog/page.tsx:65-76 | the imperative cutting returns exactly `SnippetOf(text)` |
| Blog.SourceTextIsFirstCandidate | app/blog/page.tsx:55-62 | the first non-empty candidate is the source text |
| Blog.FirstOfPushes | app/blog/page.tsx:55-62 | the first non-empty entry of the five conditional pushes is the first non-empty field in push order |
| Blog.SnippetOf | app/blog/page.tsx:63-76 | the cutting rules; `ShortTextUnchanged`, `LongTextKeepsPrefix`, `CutRules` and `KeptPartTrimmed` state what it gives |
| Blog.Snippet | app/blog/page.tsx:54-77 | `buildSnippet` as a function; `BuildSnippet` computes it and `EmptyItemEmptySnippet` states its empty case |
| Blog.ShortTextUnchanged | app/blog/page.tsx:69 | a text of at most 300 characters is returned unchanged, without an ellipsis |
| Blog.LongTextKeepsPrefix | app/blog/page.tsx:71-76 | a longer text keeps a prefix of 300 to 400 characters; the ellipsis follows iff the text is longer than that prefix |
| Blog.CutRules | app/blog/page.tsx:72-74 | the cut falls right after the `.` of the last `". "` at index 300 or later; else at the last space at 300 or later; else at the window's end |
| Blog.SpaceCutAfterText | app/blog/page.tsx:72-74 | in a collapsed text a space is never preceded by whitespace, so a cut at a space keeps no trailing whitespace |
| Blog.KeptPartTrimmed | app/blog/page.tsx:63-75 | on a cleaned text the kept part has no whitespace at either end |
| Blog.EmptyItemEmptySnippet | app/blog/page.tsx:62-69 | an item with every field empty gives `''` |
| Numerals.DigitChar | components/Estimator.tsx:193 | a digit's character has that value |
| Numerals.NatToString | components/Estimator.tsx:193 | `toString` of a natural number: digits only, without a leading zero unless the number is 0, one digit exactly below 10 |
| Numerals.DigitPrefixLength | components/Estimator.tsx:190 | the longest digit prefix that `parseInt` reads |
| Numerals.DigitsValueOfNatToString | components/Estimator.tsx:190-193 | the digits of `n.toString()` have value n |
| Numerals.ParseIntOfDigits | components/Estimator.tsx:190 | `parseInt` of a non-empty digit string is its value |
| Numerals.ParseIntOfNatToString | components/Estimator.tsx:190-193 | `parseInt(n.toString())` is n |
| Numerals.ParseIntOfEmpty | components/Estimator.tsx:190-191 | `parseInt('')` is NaN |
| Numerals.ParseInt | components/Estimator.tsx:190 | `parseInt(s, 10)`; `ParseIntOfDigits`, `ParseIntOfIntToString` and `ParseIntOfEmpty` state what it gives |
| Numerals.IntToString | components/Estimator.tsx:196 | `String(i)`; `ParseIntOfIntToString` states its round trip |
| Numerals.ParseIntOfIntToString | components/Estimator.tsx:190-196 | `parseInt(String(i))` is i for every integer, negative ones included |
| Estimator.InitialField | components/Estimator.tsx:21-32 | the initial field, 5 shown as `5`, is valid |
| Estimator.OnBlur | components/Estimator.tsx:188-198 | the blur; `BlurRules`, `BlurCases`, `BlurShowsCount` and `BlurIdempotent` state what it gives |
| Estimator.BlurCases | components/Estimator.tsx:190-197 | a positive parsed value becomes the count, shown as its decimal text; otherwise the count is kept and shown again |
| Estimator.Step | components/Estimator.tsx:183-198 | one edit or blur; `StepKeepsValid` states it keeps the field valid |
| Estimator.Replay | components/Estimator.tsx:183-198 | a sequence of edits and blurs; `ReplayKeepsValid` and `PagesNeverBelowOne` state what it keeps |
| Estimator.OnChange | components/Estimator.tsx:183-187 | an edit is taken exactly when the new text is all digits (the empty text included); otherwise nothing changes; the count never changes |
| Estimator.BlurRules | components/Estimator.tsx:188-198 | a positive value becomes the count, shown as `n.toString()`; an empty or zero value keeps the count and shows it again |
| Estimator.StepKeepsValid | components/Estimator.tsx:183-198 | an edit or a blur keeps the count at least 1 and the text all digits |
| Estimator.ReplayKeepsValid | components/Estimator.tsx:183-198 | any sequence of edits and blurs keeps the field valid |
| Estimator.PagesNeverBelowOne | components/Estimator.tsx:183-198 | from the initial value 5, `form.pages >= 1` after any sequence of edits and blurs |
| Estimator.BlurShowsCount | components/Estimator.tsx:193-196 | after a blur the text is the count's `toString`, which parses back to the count |
| Estimator.BlurIdempotent | components/Estimator.tsx:188-198 | a second blur changes nothing |
| Estimator.BlurDropsLeadingZeros | components/Estimator.tsx:190-193 | blurring `007` gives the count 7, shown as `7` |
| Estimator.BlurRevertsWithoutPositive | components/Estimator.tsx:186-197 | clearing the field or typing zeros, then blurring, keeps the count and shows it again |
| Estimator.UpdateChangesExactlyItsKey | components/Estimator.tsx:65-67 | `updateForm(k, v)` gives exactly the forms that hold v at k and agree with the old form on every other key |
| Estimator.UpdateLaws | components/Estimator.tsx:65-67 | the last write to a key wins; writes to different keys commute; repeating a write changes nothing |
| Estimator.WithUpdate | components/Estimator.tsx:65-67 | `updateForm` as a record update; `UpdateChangesExactlyItsKey` and `UpdateLaws` state what it gives |
| Estimator.StructuredSuggestionRules | components/Estimator.tsx:47-51 | in structured mode: the pages hint iff `pages <= 0`, first; phasing iff `pages > 25`; the risk hint iff high and rushed, last; each hint at most once, so the length is the number of conditions that hold; never a free-form hint; at most two hints |
| Estimator.ValidFormNeverAsksForPages | components/Estimator.tsx:49 | a form kept by the pages field never gets the pages hint |
| Estimator.InlineSuggestions | components/Estimator.tsx:47-56 | the inline hints; `StructuredSuggestionRules` and `FreeformSuggestionRules` state them per mode |
| Estimator.FreeformSuggestionRules | components/Estimator.tsx:52-56 | in free-form mode: the detail hint iff the description is under 40 characters, first; the accounts hint iff none of auth/login/signup/"sign up" occurs ignoring case; the admin hint iff neither admin nor dashboard occurs, last; each hint at most once, so the length is the number of conditions that hold |
| Estimator.HintsDistinct | components/Estimator.tsx:49-55 | the six hint strings are distinct |
| Estimator.MentionsAccounts | components/Estimator.tsx:54 | `/auth\|login\|signup\|sign up/i.test`: one of the four words occurs ignoring case; `FreeformSuggestionRules`, `MentionsIgnoreCase` and `FoundWhereItStarts` state its use |
| Estimator.MentionsAdmin | components/Estimator.tsx:55 | `/admin\|dashboard/i.test`: one of the two words occurs ignoring case; `FreeformSuggestionRules` and `MentionsIgnoreCase` state its use |
| Estimator.MentionsIgnoreCase | components/Estimator.tsx:54-55 | `Login` and `DASHBOARD` in any case silence the accounts and admin hints |
| Estimator.FoundWhereItStarts | components/Estimator.tsx:54-55 | an occurrence ignoring case at some index makes the test succeed |
| Estimator.FallbackRules | components/Estimator.tsx:69-92 | a failed request sets an error; on success the answer's estimate and source are shown; on failure in structured mode the local engine's estimate with source `fallback-local`, in free-form mode no result |
| Estimator.CalcResult | components/Estimator.tsx:69-92 | the outcome of `calculate`; `FallbackRules` states it |
| Estimator.EstimatorState.constructor | components/Estimator.tsx:19-36 | free-form mode, the web-app / 5 / medium / auth form, the field showing `5`, not loading, no error and no result |
| Estimator.EstimatorState.SetMode | components/Estimator.tsx:19 | changes the mode and nothing else |
| Estimator.EstimatorState.SetDescription | components/Estimator.tsx:20 | changes the description and nothing else |
| Estimator.EstimatorState.UpdateForm | components/Estimator.tsx:65-67 | the form becomes the update of the old form and nothing else changes; an update that keeps pages at least 1 keeps the state valid |
| Estimator.EstimatorState.OnPagesChange | components/Estimator.tsx:183-187 | the field goes through `OnChange`; the form is untouched; validity is kept |
| Estimator.EstimatorState.OnPagesBlur | components/Estimator.tsx:188-198 | the field goes through `OnBlur` and the form's pages follow it; validity is kept |
| Estimator.EstimatorState.CommitPages | components/Estimator.tsx:191-193 | a positive count is written to the form through `updateForm` and the input shows its digits; nothing else changes |
| Estimator.EstimatorState.RestorePagesText | components/Estimator.tsx:194-197 | otherwise the form is untouched and the input shows the count it already holds |
| Estimator.EstimatorState.Calculate | components/Estimator.tsx:69-92 | error, result and source become `CalcResult` of the old mode, form and outcome; loading ends false; the inputs are untouched |
| Resume.OrderListsEverySectionOnce | app/resume/page.tsx:150-158 | the order lists each of the seven sections exactly once |
| Resume.SevenKeysTotal | app/resume/page.tsx:160-168 | a record with the seven keys is total |
| Resume.Flags | app/resume/page.tsx:160-168 | a seven-flag record is total |
| Resume.Uniform | app/resume/page.tsx:203-205 | the reduce gives every key the same value |
| Resume.Included | app/resume/page.tsx:248-276 | a section is listed exactly when it is in the order and selected |
| Resume.AllChecked | app/resume/page.tsx:170 | every flag is set; `CountExtremes`, `CountFullIffAll` and `ToggleAllRules` state it against the count and the toggle-all |
| Resume.NoneChecked | app/resume/page.tsx:171 | no flag is set; `CountExtremes` and `CountZeroIffNone` state it against the count |
| Resume.PrintedSections | app/resume/page.tsx:270-276 | the sections the print container renders; `PrintedRules` and `PrintedOfFlags` state them |
| Resume.PresetSelection | app/resume/page.tsx:192-200 | each preset's record is total |
| Resume.CountIsIncludedLength | app/resume/page.tsx:248 | the number of true entries is the length of the included list |
| Resume.IncludedCount | app/resume/page.tsx:248 | the number of set flags; `CountIsIncludedLength`, `CountMatchesPrinted` and `CountExtremes` state it |
| Resume.CountMatchesPrinted | app/resume/page.tsx:248-276 | the shown count is the number of printed sections, at most 7 |
| Resume.CountZeroIffNone | app/resume/page.tsx:248 | the count is 0 exactly when no listed section is selected |
| Resume.CountFullIffAll | app/resume/page.tsx:248 | the count is at most the number of keys, and equal exactly when all are selected |
| Resume.CountExtremes | app/resume/page.tsx:170-171 | `noneChecked` (which disables export) iff the count is 0; `allChecked` iff the count is 7 |
| Resume.IncludedKeepsOrder | app/resume/page.tsx:270-276 | filtering an ascending list of sections keeps it ascending |
| Resume.PrintedRules | app/resume/page.tsx:270-276 | the print container holds exactly the selected sections, in the fixed order header to projects |
| Resume.PresetRules | app/resume/page.tsx:192-200 | header, work, tech and education are on in every preset; `full` is everything; `core` clears activities and projects; `minimal` also clears objective |
| Resume.PresetPrinted | app/resume/page.tsx:192-200 | the sections each preset prints, in order |
| Resume.PresetKeeps | app/resume/page.tsx:192-200 | which sections each preset keeps, one by one |
| Resume.IncludedStep | app/resume/page.tsx:270-276 | filtering proceeds one section at a time |
| Resume.PrintedOfFlags | app/resume/page.tsx:270-276 | the print list is the seven conditional sections in order |
| Resume.ToggleRules | app/resume/page.tsx:202 | a toggle flips exactly its key, keeps the record total, and two toggles cancel out |
| Resume.ToggleAllRules | app/resume/page.tsx:170-206 | toggle-all clears every section when all are selected, and selects every section otherwise |
| Resume.ResumePage.constructor | app/resume/page.tsx:160-168 | every section starts selected |
| Resume.ResumePage.Toggle | app/resume/page.tsx:202 | flips the key's flag and nothing else |
| Resume.ResumePage.ToggleAll | app/resume/page.tsx:203-206 | the loop over the keys sets every flag to `!allChecked` |
| Resume.ResumePage.SetPreset | app/resume/page.tsx:192-200 | the selection becomes the preset's record |

## Left out

- Floating point. The engine uses exact integer arithmetic, and `Math.round` rounds halves up in both. The factors differ in how their IEEE products behave:
  - 1.35 and 1.75 meet no half, because the subtotal is a multiple of 20 (`ComplexityStepIsExact`).
  - 0.88 and 1.12 never meet a half: 88 or 112 times a whole number is never 50 modulo 100.
  - 1.25, 0.75 and 1.1 do meet exact halves. Examples are 702 · 1.25 = 877.5, 2 · 0.75 = 1.5 and 5 · 1.1 = 5.5. But 1.25 and 0.75 are exact in binary, and the double nearest 1.1 lies above 1.1, so those products never fall below the half. They round up, as in the model.
  - 0.95 is the exception. The double nearest it lies below 0.95, so at an exact half the IEEE product `x * 0.95` can fall below the half for large bases. It then rounds down where the model rounds up.
- Fractional numbers. JSON numbers are integers in the model. That leaves out three things:
  - schema rejection of a fractional `pages`;
  - a fractional `pages` from the language model's reply;
  - a fractional count in the widget.
- String length. Lengths count characters, not UTF-16 code units.
- `Estimation.TypeEntry` only covers own keys of the rate table; it does not model a type named after an `Object.prototype` member, which `typeBaseMap[…]` would find on the prototype.
- `EstimateRoute.Sanitize` treats a truthy `notes` that is not a string as the error path. For a number or a boolean, `slice` is missing, the call throws and the route answers 500; that part is exact. The model does not capture an array, which the source would slice as an array.
- `EstimateRoute.ParseStructured` does not model zod's `issues` array in the 400 answer.
- The `Retry-After` header and the `raw` and `suggestion` fields of error answers are left out. Answers carry only their status and error text.
- `isOriginAllowed` and the `ALLOWED_ORIGINS` list are a boolean parameter of `Post`, because they depend on URL parsing.
- The OpenAI completion call is left out, as is the regular-expression extraction of JSON from its text. The language model's reply enters `Handle` as an already parsed value, or as a failure.
- `JSON.parse` and `req.text()` are left out. The body text and its parse are parameters.
- `Date.now()` becomes the `now` parameter of the rate limiter.
- Concurrency is not modelled. That covers concurrent requests sharing `ipHits`, and the async order of `calculate`.
- Blog fields. Feed items are strings, with `""` for a missing field, so `String(item['content:encoded'])` of a non-string is not modelled. `fetchViaProxy`, the RSS parsing and `BlogPage` are left out.
- Numerals.ParseInt: it does not model `parseInt` of a huge digit string, whose precision is lost, or `toString` in exponent form.
- Estimator.FieldValid: its digit-text half, as kept by `StepKeepsValid` and `ReplayKeepsValid`, holds in the source only for counts below 1e21. A typed count of 22 or more digits parses to a double of at least 1e21, whose `toString` is in exponent form, such as `"1e+21"`. The model's counts are unbounded integers, so that case does not arise in it.
- Widget selects. Their values are modelled as the enums they were written for; the `as any` casts on the select `onChange` handlers are not modelled.
- `Estimator.EstimatorState.Calculate`: the error text of a thrown `fetch` or `res.json()` is part of the outcome parameter. The request itself, and `setLoading(true)` before it, are not observable in the model.
- The `useEffect` that syncs `pagesInput` to `form.pages` is folded into `OnPagesBlur`. The blur is the only handler that changes `form.pages` while the field exists.
- `localStorage`, `Intl.NumberFormat`, `exportInvoicePDF` (jsPDF) and `useReactToPrint` are output or storage. None of them decides anything modelled here.
- Rendering is left out: JSX, animation, the three.js scene, the hero and the static data files carry no logic that the model needs.
