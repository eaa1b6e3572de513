# LokSarthi core — a Dafny model

LokSarthi is a conversational assistant that helps Indian citizens find government
welfare schemes, draft RTI (Right to Information) requests and get financial advice.
This project models its deterministic core in Dafny and proves properties of the model:

- **Citizen profile and session records** (`Schemas`). A profile holds 17 optional
  attributes. The model covers its completeness score, its dictionary form and the
  rebuild from that form. A session is a `class` whose history `AddMessage` appends to in
  place. The model also covers the last-n history window, and the saved form of a session
  (last 20 entries, whole-second timestamps) together with its reload.
- **Eligibility matcher and progressive profiler** (`SchemeMatcher`). This covers:
  - the hard filter of a scheme's eligibility rules (an unknown attribute never
    disqualifies);
  - the capped relevance score;
  - `MatchSchemes`, which filters a catalog, scores, stable-sorts by score (highest first)
    and truncates;
  - the choice of the next profiling question.
- **Rule-based financial checks** (`FinancialAdvisor`): scam detection by keyword, the
  three interest-rate bands, loan-parameter validation with risk banding, and the scam
  short-circuit in front of the language model.
- **One conversation turn** (`Orchestrator`). `ProcessMessage` works on a `Session`:
  - it switches the language (ten supported codes);
  - it merges the extracted attributes (non-null values only);
  - it records the user's message, routes by intent to one of the four pillars (greeting,
    scheme discovery, RTI, financial) and records the reply;
  - it decides whether speech is requested.

  Scheme discovery asks a profiling question while fewer than three of the six critical
  attributes are known. Otherwise it runs the matcher and stores a projection of the
  result.

Supporting modules are `Wrappers` (`Option`, `Result`), `Slices` (Python's `s[:n]` and
`s[-n:]`, negative bounds included) and `Text` (ASCII lower-casing and substring search).

Inputs the core receives from outside are parameters:
- the scheme catalog;
- the intent-detection result;
- the replies of the language model (financial advice, scheme explanation) and of the RTI
  assistant;
- clock readings.

Properties worth noting:
- `ProfilingQuestion` can never ask for marital status or BPL status. Below five known
  critical attributes, one of the first six checks always fires.
- Scheme discovery asks only while fewer than three critical attributes are known. So it
  only ever asks for age, gender or state (`Orchestrator.NextDiscoveryStep`).
- The five relevance bonuses add up to at most 50, so the cap at 100 never takes effect.
- The profile merge never loses a known attribute, so a turn never lowers the completeness
  score.

## Model

| member | source | states |
|---|---|---|
| Text.Lower | app/services/financial_advisor.py:77 | same length; each ASCII capital is lowered, every other character kept; no capital is left |
| Text.ContainsIsSubstring | app/services/financial_advisor.py:81 | the executable scan finds `k` in `t` exactly when `k` occurs at some position of `t` |
| Schemas.FieldNamed | app/orchestrator.py:105 | a name resolves to an attribute exactly when that attribute has that name, and to nothing exactly when no attribute has it |
| Schemas.GetWith | app/models/schemas.py:11-27 | writing one attribute sets it and leaves every other attribute as it was |
| Schemas.KnownCountCritical | app/models/schemas.py:31-32 | the count of known critical attributes is the sum over age, gender, state, occupation, category and annual income |
| Schemas.CompletenessScore | app/models/schemas.py:29-33 | the score is the number of known critical attributes divided by 6. It lies in [0,1], and it is 1 exactly when all six are known and 0 exactly when none is |
| Schemas.CompletenessThresholds | app/models/schemas.py:29-33 | score >= 0.8 iff at least 5 are known; score < 0.5 iff fewer than 3; score == 0 iff none |
| Schemas.ProfileToDict | app/models/schemas.py:35-36 | the keys are exactly the known attributes, with their values unchanged and well typed |
| Schemas.GetProfileFromDict | app/models/schemas.py:79 | a rebuilt profile knows exactly the attributes the dictionary names, with its values |
| Schemas.ProfileRoundTrip | app/models/schemas.py:79 | rebuilding a profile from its dictionary gives back the same profile |
| Schemas.ProfileDictRoundTrip | app/models/schemas.py:79 | the dictionary of a rebuilt profile is the dictionary it was built from |
| Schemas.Trunc | app/models/schemas.py:73-74 | `int()` on a float truncates toward zero, for either sign |
| Schemas.Encode | app/models/schemas.py:64-75 | the saved form keeps the session id, the last min(20, n) history entries in order, truncated timestamps and exactly the known profile attributes |
| Schemas.Decode | app/models/schemas.py:77-90 | fails exactly when the session id is missing; a missing language, pillar, profile, history, match list or timestamp gets "hi", "greeting", the empty profile, [], [] or the clock reading |
| Schemas.SessionRoundTrip | app/models/schemas.py:64-90 | reloading a saved session restores id, user, language, pillar, profile and matches; the history keeps its last 20 entries and the timestamps become whole seconds |
| Schemas.PersistedIsStable | app/models/schemas.py:64-90 | a second save and reload changes nothing more, and saving a reloaded session gives the same dictionary |
| Schemas.Session.constructor | app/models/schemas.py:40-50 | a new session speaks Hindi, is in the greeting pillar and knows nothing, with empty history and matches |
| Schemas.Session.Restore | app/models/schemas.py:80-90 | the restored session's fields are those of the decoded state |
| Schemas.Session.AddMessage | app/models/schemas.py:52-58 | exactly one entry (role, content, time) is appended at the end; `updated_at` becomes that time; nothing else changes |
| Schemas.Session.GetRecentHistory | app/models/schemas.py:60-62 | for n >= 1, the last min(n, len) entries in order; for n == 0 the whole history (Python's `-0`); for n < 0 all but the first -n |
| SchemeMatcher.StateAllowed | app/services/scheme_matcher.py:38-40 | true exactly when some listed state equals the profile's state ignoring ASCII case |
| SchemeMatcher.PassesFilter | app/services/scheme_matcher.py:21-77 | a rule set without any recognised key is passed by every profile, and the all-unknown profile passes every rule set |
| SchemeMatcher.PassesFilterIffNoViolation | app/services/scheme_matcher.py:21-77 | the filter passes exactly when no rule is violated: inclusive age bounds, case-insensitive states, exact gender/occupation/category/marital lists, income at most the maximum, flags rejecting only a known false |
| SchemeMatcher.ViolationNeedsKnownAttribute | app/services/scheme_matcher.py:25-75 | a rule only rejects on a known attribute |
| SchemeMatcher.ForgettingNeverDisqualifies | app/services/scheme_matcher.py:25-75 | a profile that knows less (no conflicting values) passes every rule set the fuller profile passes |
| SchemeMatcher.UnrecognisedKeysIgnored | app/services/scheme_matcher.py:21-77 | keys the matcher does not recognise never change whether a scheme is a candidate. That holds through the filter and through the `not rules` shortcut, which such keys switch off |
| SchemeMatcher.StateMatchIgnoresCase | app/services/scheme_matcher.py:38-40 | two states that differ only in ASCII case get the same verdict |
| SchemeMatcher.RelevanceScore | app/services/scheme_matcher.py:80-106 | the score lies in [50,100] and is 50 plus independent bonuses: 15 occupation, 10 category, 10 gender, 10 BPL, 5 for "lakh"/"₹5,00,000" in the benefit |
| SchemeMatcher.ScoreMonotone | app/services/scheme_matcher.py:85-104 | meeting more of the bonus conditions never lowers the score |
| SchemeMatcher.EligibleIsPassing | app/services/scheme_matcher.py:122-123 | the empty-rules shortcut agrees with the filter itself |
| SchemeMatcher.CandidatesMembership | app/services/scheme_matcher.py:119-128 | a match is a candidate exactly when its scheme is in the catalog, eligible, and carries its own relevance score |
| SchemeMatcher.InsertByScorePermutes | app/services/scheme_matcher.py:130-131 | inserting adds the match and loses nothing |
| SchemeMatcher.InsertByScoreSorted | app/services/scheme_matcher.py:130-131 | inserting into a non-increasing list keeps it non-increasing |
| SchemeMatcher.InsertByScoreWithScore | app/services/scheme_matcher.py:130-131 | inserting puts the match ahead of the others with its score and leaves every other score's matches as they were |
| SchemeMatcher.SortByScoreDescCorrect | app/services/scheme_matcher.py:130-131 | the sort yields a non-increasing permutation that keeps, for each score, the catalog order of the matches with that score (stability) |
| SchemeMatcher.RankedMatches | app/services/scheme_matcher.py:109-132 | the result has min(max_results, candidates) entries and non-increasing scores. It holds only eligible, correctly scored catalog schemes, and per score a prefix of the candidates in catalog order. They are the top matches: no candidate left out scores higher than one kept |
| SchemeMatcher.RankedAreTop | app/services/scheme_matcher.py:109-132 | no candidate cut off by the slice scores higher than a match that is kept |
| SchemeMatcher.PrefixKeepsTop | app/services/scheme_matcher.py:130-132 | cutting a non-increasing list after k entries drops nothing that scores higher than what is kept |
| SchemeMatcher.MatchSchemes | app/services/scheme_matcher.py:109-132 | the loop builds the candidate list; the result is its stable descending sort cut to max_results, with all the facts of RankedMatches |
| SchemeMatcher.ProfilingQuestion | app/services/scheme_matcher.py:135-163 | no question iff at least 5 of the 6 critical attributes are known; otherwise the first unknown one in the fixed order; never marital status or BPL |
| FinancialAdvisor.AnyKeywordIn | app/services/financial_advisor.py:80-81 | true exactly when some keyword occurs in the text |
| FinancialAdvisor.FirstMatchingPattern | app/services/financial_advisor.py:79-86 | the index of a matching pattern with no matching pattern before it; none exactly when no pattern matches |
| FinancialAdvisor.DetectScam | app/services/financial_advisor.py:75-88 | a scam exactly when some keyword is a substring of the lower-cased text; the alerts are those of the earliest matching pattern |
| FinancialAdvisor.HandleFinancialQuery | app/services/financial_advisor.py:116-123 | a scam gets its Hindi alert for Hindi and its English alert otherwise, whatever the model would say; other messages get the model's reply |
| FinancialAdvisor.DetectPredatoryLending | app/services/financial_advisor.py:91-113 | predatory iff rate > 36 (no "is_high" key); otherwise "is_high" is rate > 24; the first three government schemes are offered iff rate > 24 |
| FinancialAdvisor.AssessLoan | app/services/financial_advisor.py:47-72 | the error result exactly when rate, tenure or principal is <= 0; otherwise the inputs are echoed back |
| FinancialAdvisor.RiskBandsAgree | app/services/financial_advisor.py:70-71 | HIGH iff predatory, MEDIUM iff high but not predatory, LOW iff neither and no alternatives, in agreement with the predatory-lending check |
| Orchestrator.EveryQuestionHasText | app/orchestrator.py:12-45 | every identifier the profiler can return is a key of the question table, so the look-up cannot fail; Hindi gets the Hindi text, any other language the English one |
| Orchestrator.NewLanguage | app/orchestrator.py:98-101 | the language changes only to a detected code among the ten supported ones, and always does for a supported detected code |
| Orchestrator.SwitchLanguage | app/orchestrator.py:89-101 | the session's language and the turn's language both become `NewLanguage` of the old language and the detected one; nothing else changes |
| Orchestrator.LastWrite | app/orchestrator.py:104-106 | the position of the last update with the given key and a non-null value, with no such update after it; none exactly when there is no such update |
| Orchestrator.ApplyUpdateGet | app/orchestrator.py:105-106 | one update changes only the attribute it names, and only when its value is not null |
| Orchestrator.MergeUpdatesGet | app/orchestrator.py:104-106 | after the merge each attribute holds the value of the last non-null update naming it, or its old value when there is none |
| Orchestrator.MergeKeepsKnown | app/orchestrator.py:104-106 | a known attribute is never reset to unknown |
| Orchestrator.MergeLeavesOthers | app/orchestrator.py:104-106 | an attribute no update writes keeps its value |
| Orchestrator.MergeNeverLowersKnownCount | app/orchestrator.py:104-106 | the merge never lowers the number of known attributes among any list |
| Orchestrator.MergeNeverLowersCompleteness | app/orchestrator.py:104-106 | the merge never lowers the completeness score |
| Orchestrator.MergeProfile | app/orchestrator.py:103-106 | the in-place loop leaves the profile equal to the merge of all updates in order, so every merge lemma above applies to it; nothing else changes |
| Orchestrator.PillarTransitions | app/orchestrator.py:114-139 | the pillar changes only on the five routing intents, only to one of the four pillars, and repeating the intent changes nothing more |
| Orchestrator.MovePillar | app/orchestrator.py:114-129 | the pillar becomes the one the intent selects, or stays for any other intent; nothing else changes |
| Orchestrator.FirstUnknownIsEarly | app/orchestrator.py:171-173 | with fewer than three critical attributes known, the first unknown one in the asking order is among the first three |
| Orchestrator.NextDiscoveryStep | app/orchestrator.py:171-189 | ask iff fewer than 3 critical attributes are known, with the introduction iff none is; the question is the first unknown one and is always age, gender or state |
| Orchestrator.Summarise | app/orchestrator.py:190-193 | the projection has one entry per match, in order, with the scheme's name, benefit and the match's score |
| Orchestrator.RankedSummaries | app/orchestrator.py:188-193 | the stored matches are at most seven, in non-increasing score order. Each is the name, benefit and relevance score of an eligible catalog scheme. No eligible catalog scheme left out scores higher than a stored one |
| Orchestrator.HandleSchemeDiscovery | app/orchestrator.py:167-196 | asks the question and leaves the matches alone, or stores the projection of the ranked matches (at most 7, scores non-increasing, each an eligible catalog scheme with its relevance score, none outscored by an eligible scheme left out) and answers with the explanation; nothing else changes |
| Orchestrator.HandlePillar | app/orchestrator.py:130-139 | scheme discovery, RTI and financial advice answer in their pillars and the welcome message in any other; only scheme discovery changes the stored matches |
| Orchestrator.Route | app/orchestrator.py:111-139 | the pillar moves as the intent says, the reply comes from the handler of the pillar the session ends in, and only scheme discovery changes the stored matches |
| Orchestrator.SpeechFor | app/orchestrator.py:144-153 | speech is requested iff the reply is shorter than 500 characters; Hindi and English replies are spoken as they are; other languages have their first 300 characters translated and spoken in Hindi |
| Orchestrator.ProcessMessage | app/orchestrator.py:71-164 | a turn sets the language, merges the profile, moves the pillar as the intent says, appends exactly the user's message then the reply, and takes the reply from the handler of the pillar it ends in |

## Left out

- Reading the scheme catalog from its JSON file, and caching it, is I/O. The catalog is a parameter of `MatchSchemes`, `HandleSchemeDiscovery` and `ProcessMessage`.
- Intent detection, the language-model calls, the scheme explanation and the RTI assistant are not part of this model. Their results are inputs (`IntentResult`, `ServiceReplies`).
- Translation and text-to-speech calls, and the exception they may raise, are not modelled. `SpeechFor` states which request would be made.
- The loan EMI formula, its rounding, and the alert texts of the predatory-lending check are floating-point arithmetic and formatting. They are not modelled.
- FinancialAdvisor.AssessLoan: the rate, principal and tenure are exact numbers, with no NaN or infinity. The formula's failures on inputs that pass the `<= 0` validation are not represented, and the model returns a success for those inputs:
  - a tiny positive rate makes `1 + monthly_rate` round to 1.0, and the division raises ZeroDivisionError (app/services/financial_advisor.py:57);
  - a large power raises OverflowError;
  - a NaN rate passes every `<= 0` test, and `round` raises ValueError (app/services/financial_advisor.py:66).
- DynamoDB persistence, the HTTP endpoints and the configuration module are not part of this model.
- Clock readings are parameters, and each call takes one reading `now` where the source reads the clock twice. The new-session constructor fills `created_at` and `updated_at` from two separate readings (app/models/schemas.py:49-50). `from_dict` evaluates both of its default readings even when the keys are present (app/models/schemas.py:88-89). `add_message` stamps the entry and `updated_at` separately. In each case the model uses the same instant for both, so it does not capture the two timestamps differing by the time between the readings.
- `Text.Lower` lowers ASCII letters only. Python's `str.lower` also folds non-ASCII letters.
- Orchestrator.MergeUpdates: an attribute name is resolved against the 17 profile attributes only. The source's `hasattr` test (app/orchestrator.py:105) accepts every attribute the profile object has. That includes its two methods and every inherited or dunder name (`__class__`, `__dict__`, `__eq__`, …). `setattr` would then overwrite that attribute, or raise for some of them. The model ignores such an update instead.
- Orchestrator.MergeUpdates: requires that every non-null value has its attribute's type. The source would store an ill-typed value unchecked.
- Schemas.ProfileFromDict: requires a well-typed dictionary, for the same reason. A dictionary key that names no attribute (which makes the source raise) cannot be represented.
- Schemas.Decode: a key that is present with a null value is read as missing, because `SessionDict` has no separate null. This changes the outcome for these keys:
  - language, pillar, history and matches: the source keeps the null where the model uses the default;
  - `session_id`: the source goes on with a null id (app/models/schemas.py:81), where the model fails with `MissingSessionId`;
  - `profile`: the source raises a TypeError from `CitizenProfile(**None)` (app/models/schemas.py:79), where the model uses the empty profile;
  - `created_at` / `updated_at`: the source keeps the null (app/models/schemas.py:88-89), where the model uses `now`.
- Orchestrator.IntentResult: a `profile_updates` value that is null is not represented; the updates are always a sequence. In the source, `.get("profile_updates", {})` returns None (app/orchestrator.py:95). The loop over `profile_updates.items()` then raises an AttributeError (app/orchestrator.py:104), after the language has already been switched. `ProcessMessage` always completes its turn.
- Orchestrator.IntentOf: a null intent is not represented. It would route like any unrecognised intent.
- SchemeMatcher.Rules: rule flags count as set only when they are the JSON value `true`. Other truthy values (a non-empty string, a non-zero number) are not represented, and neither are rule values of the wrong type.
- SchemeMatcher.Scheme: a catalog record whose `eligibility` is null is read as the empty rule set, so it becomes a candidate scored at least 50. In the source it gets past the `not rules` test. The scorer then tests `"occupations" in None`, which raises a TypeError (app/services/scheme_matcher.py:86) and aborts the whole `match_schemes` call. That error path is not represented.
- SchemeMatcher.Scheme: the benefit text is always present. The scorer's default of an empty text for a missing `benefit_amount` is therefore not represented.
- SchemeMatcher.SortByScoreDesc: Python's sort algorithm itself is not modelled, only its contract. The model sorts with a stable insertion sort; the result is proved non-increasing, a permutation of the candidates and stable.
- The financial-advice prompt text sent to the language model is not modelled.
