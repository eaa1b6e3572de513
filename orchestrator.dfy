/** One conversation turn (app/orchestrator.py): the language switch, the profile merge,
    the routing between the greeting, scheme-discovery, RTI and financial pillars, the
    scheme-discovery step and the two history entries the turn records. Intent detection,
    the language-model replies and speech synthesis are inputs. */
module Orchestrator {
  import opened Wrappers
  import opened Slices
  import opened Schemas
  import opened SchemeMatcher
  import opened FinancialAdvisor

  // ---------------------------------------------------------------------------
  // Static texts

  /** The welcome message, in Hindi and in English (`GREETING_RESPONSES`). */
  const GreetingHi: string :=
    "🙏 नमस्ते! मैं **लोकसारथी** हूँ — आपका AI सहायक।\n\n" +
    "मैं आपकी 3 तरह से मदद कर सकता हूँ:\n\n" +
    "🏛️ **सरकारी योजनाएँ** — बताइए अपने बारे में, मैं बताऊँगा कौन सी योजनाएँ आपके लिए हैं\n" +
    "📝 **RTI / शिकायत** — अपनी समस्या बताइए, मैं RTI आवेदन बना दूँगा\n" +
    "💰 **लोन / पैसा सलाह** — लोन, बचत, या धोखाधड़ी के बारे में पूछिए\n\n" +
    "बस बोलिए या लिखिए — मैं हिंदी, English, और कई भारतीय भाषाओं में समझता हूँ! 🇮🇳"

  const GreetingEn: string :=
    "🙏 Namaste! I am **LokSarthi** — your AI assistant.\n\n" +
    "I can help you in 3 ways:\n\n" +
    "🏛️ **Government Schemes** — Tell me about yourself, I'll find schemes you're eligible for\n" +
    "📝 **RTI / Complaint** — Describe your problem, I'll draft an RTI application\n" +
    "💰 **Loan / Financial Advice** — Ask about loans, savings, or fraud protection\n\n" +
    "Just speak or type — I understand Hindi, English, and many Indian languages! 🇮🇳"

  /** `PROFILE_QUESTIONS`: the text of each profiling question, by identifier and language. */
  const ProfileQuestions: map<string, map<string, string>> := map[
    "age" := map["hi" := "🙏 आपकी उम्र कितनी है?",
                 "en" := "🙏 What is your age?"],
    "gender" := map["hi" := "आप पुरुष हैं या महिला?",
                    "en" := "Are you male or female?"],
    "state" := map["hi" := "आप किस राज्य में रहते हैं?",
                   "en" := "Which state do you live in?"],
    "occupation" := map["hi" := "आप क्या काम करते हैं? (किसान, मज़दूर, दुकानदार, छात्र, गृहिणी...)",
                        "en" := "What is your occupation? (farmer, labourer, vendor, student, homemaker...)"],
    "category" := map["hi" := "आपकी श्रेणी क्या है? (सामान्य, SC, ST, OBC, अल्पसंख्यक)",
                      "en" := "What is your category? (General, SC, ST, OBC, Minority)"],
    "income" := map["hi" := "आपकी सालाना आय (कमाई) लगभग कितनी है?",
                    "en" := "What is your approximate annual income?"],
    "marital_status" := map["hi" := "आपकी वैवाहिक स्थिति क्या है? (विवाहित, अविवाहित, विधवा/विधुर)",
                            "en" := "What is your marital status? (married, single, widowed)"],
    "bpl" := map["hi" := "क्या आपके पास BPL (गरीबी रेखा से नीचे) कार्ड है?",
                 "en" := "Do you have a BPL (Below Poverty Line) card?"]
  ]

  /** The introduction before the first profiling question. */
  const IntroHi: string := "चलिए, आपके लिए सही योजनाएँ ढूंढते हैं! बस कुछ सवालों के जवाब दीजिए:\n\n"
  const IntroEn: string := "Let me find the right schemes for you! Just answer a few questions:\n\n"

  /** The prefixes of every later profiling question. */
  const ThanksHi: string := "धन्यवाद! 👍 अगला सवाल:\n\n"
  const ThanksEn: string := "Thank you! 👍 Next question:\n\n"

  /** The welcome message for a language: Hindi for Hindi, English for every other language. */
  function GreetingText(language: string): string {
    if language == "hi" then GreetingHi else GreetingEn
  }

  /** The text of question `key` in `language`, falling back to English. The English
      fallback is looked up before the language is, so an identifier that is not in the
      table fails (`None`) whatever the language. */
  function QuestionText(key: string, language: string): Option<string> {
    if key !in ProfileQuestions || "en" !in ProfileQuestions[key] then None
    else if language in ProfileQuestions[key] then Some(ProfileQuestions[key][language])
    else Some(ProfileQuestions[key]["en"])
  }

  /** Every identifier the profiler can return is in the question table, so the look-up in
      scheme discovery never fails: Hindi speakers get the Hindi text, everyone else the
      English one. */
  lemma EveryQuestionHasText(q: Question, language: string)
    ensures QuestionKey(q) in ProfileQuestions
    ensures QuestionText(QuestionKey(q), language) ==
              Some(ProfileQuestions[QuestionKey(q)][if language == "hi" then "hi" else "en"])
  {
    var key := QuestionKey(q);
    assert key in ProfileQuestions && ProfileQuestions[key].Keys == {"hi", "en"} by {
      match q
      case AskAge =>
      case AskGender =>
      case AskState =>
      case AskOccupation =>
      case AskCategory =>
      case AskIncome =>
      case AskMaritalStatus =>
      case AskBpl =>
    }
    BilingualLookup(ProfileQuestions[key], language);
  }

  /** In a table with exactly a Hindi and an English entry, looking a language up with the
      English fallback gives Hindi for Hindi and English for every other language. */
  lemma BilingualLookup(texts: map<string, string>, language: string)
    requires texts.Keys == {"hi", "en"}
    ensures "en" in texts
    ensures (if language in texts then texts[language] else texts["en"])
            == texts[if language == "hi" then "hi" else "en"]
  {
  }

  /** The prefix of the first profiling question: Hindi for Hindi, English otherwise. */
  function IntroText(language: string): string {
    if language == "hi" then IntroHi else IntroEn
  }

  /** The reply that asks profiling question `q`; `first` when nothing critical is known yet. */
  function QuestionReply(q: Question, first: bool, language: string): string {
    EveryQuestionHasText(q, language);
    var question := QuestionText(QuestionKey(q), language).value;
    if first then IntroText(language) + question
    else if language == "hi" then ThanksHi + question
    else ThanksEn + question
  }

  // ---------------------------------------------------------------------------
  // Language

  /** The ten language codes a detected language may switch the session to. */
  const SupportedLanguages: seq<string> := ["hi", "en", "ta", "te", "bn", "mr", "gu", "kn", "ml", "pa"]

  /** What intent detection returns. A `None` is a key its result lacks; for the detected
      language it also stands for a null value, which the source treats the same way. */
  datatype IntentResult = IntentResult(
    intent: Option<string>,
    profileUpdates: seq<(string, Option<Value>)>,
    languageDetected: Option<string>)

  /** The detected intent; a result without one counts as a greeting. */
  function IntentOf(r: IntentResult): string {
    if r.intent.Some? then r.intent.value else "greeting"
  }

  /** The session language after a turn: the detected language when it is one of the ten
      supported codes, the current one otherwise. */
  function NewLanguage(current: string, detected: Option<string>): (language: string)
    ensures language != current ==> detected == Some(language) && language in SupportedLanguages
    ensures detected.Some? && detected.value in SupportedLanguages ==> language == detected.value
    ensures detected.None? ==> language == current
  {
    if detected.Some? && detected.value != "" && detected.value in SupportedLanguages then detected.value
    else current
  }

  // ---------------------------------------------------------------------------
  // Profile merge

  /** Update `u` writes the attribute called `name`: it has that key and its value is not null. */
  predicate Writes(u: (string, Option<Value>), name: string) {
    u.0 == name && u.1.Some?
  }

  /** Every non-null value for a profile attribute has that attribute's type. */
  predicate UpdatesWellTyped(updates: seq<(string, Option<Value>)>) {
    forall i :: 0 <= i < |updates| ==>
      (FieldNamed(updates[i].0).Some? && updates[i].1.Some? ==>
         Fits(FieldNamed(updates[i].0).value, updates[i].1.value))
  }

  /** One step of the merge: a non-null value for a profile attribute is written, anything
      else (an unknown name, a null value) is skipped. */
  function ApplyUpdate(p: Profile, u: (string, Option<Value>)): Profile
    requires FieldNamed(u.0).Some? && u.1.Some? ==> Fits(FieldNamed(u.0).value, u.1.value)
  {
    match FieldNamed(u.0)
    case Some(f) => if u.1.Some? then With(p, f, u.1.value) else p
    case None => p
  }

  /** The profile after applying `updates` in order. */
  function MergeUpdates(p: Profile, updates: seq<(string, Option<Value>)>): Profile
    requires UpdatesWellTyped(updates)
    decreases |updates|
  {
    if updates == [] then p
    else
      var n := |updates| - 1;
      assert forall i :: 0 <= i < n ==> updates[..n][i] == updates[i];
      ApplyUpdate(MergeUpdates(p, updates[..n]), updates[n])
  }

  /** The position of the last update that writes `name`, if any. */
  function LastWrite(updates: seq<(string, Option<Value>)>, name: string): (r: Option<nat>)
    ensures r.None? <==> forall i :: 0 <= i < |updates| ==> !Writes(updates[i], name)
    ensures r.Some? ==> r.value < |updates| && Writes(updates[r.value], name)
    ensures r.Some? ==> forall j :: r.value < j < |updates| ==> !Writes(updates[j], name)
    decreases |updates|
  {
    if updates == [] then None
    else if Writes(updates[|updates| - 1], name) then Some(|updates| - 1)
    else
      var n := |updates| - 1;
      assert forall i :: 0 <= i < n ==> updates[..n][i] == updates[i];
      LastWrite(updates[..n], name)
  }

  lemma ApplyUpdateGet(p: Profile, u: (string, Option<Value>), f: Field)
    requires FieldNamed(u.0).Some? && u.1.Some? ==> Fits(FieldNamed(u.0).value, u.1.value)
    ensures Get(ApplyUpdate(p, u), f) == if Writes(u, FieldName(f)) then u.1 else Get(p, f)
  {
    match FieldNamed(u.0)
    case Some(g) =>
      if u.1.Some? {
        GetWith(p, g, u.1.value, f);
      }
    case None =>
  }

  lemma MergeUpdatesStep(p: Profile, updates: seq<(string, Option<Value>)>)
    requires UpdatesWellTyped(updates) && updates != []
    ensures UpdatesWellTyped(updates[..|updates| - 1])
    ensures MergeUpdates(p, updates) ==
              ApplyUpdate(MergeUpdates(p, updates[..|updates| - 1]), updates[|updates| - 1])
  {
    var n := |updates| - 1;
    assert forall i :: 0 <= i < n ==> updates[..n][i] == updates[i];
  }

  lemma LastWriteStep(updates: seq<(string, Option<Value>)>, name: string)
    requires updates != []
    ensures LastWrite(updates, name) ==
              if Writes(updates[|updates| - 1], name) then Some(|updates| - 1)
              else LastWrite(updates[..|updates| - 1], name)
  {
  }

  /** After the merge, an attribute holds the value of the last update that writes it, and
      keeps its old value when no update writes it. */
  lemma {:induction false} MergeUpdatesGet(p: Profile, updates: seq<(string, Option<Value>)>, f: Field)
    requires UpdatesWellTyped(updates)
    ensures var last := LastWrite(updates, FieldName(f));
            Get(MergeUpdates(p, updates), f) == if last.Some? then updates[last.value].1 else Get(p, f)
    decreases |updates|
  {
    if updates != [] {
      var n := |updates| - 1;
      var init := updates[..n];
      MergeUpdatesStep(p, updates);
      LastWriteStep(updates, FieldName(f));
      var q := MergeUpdates(p, init);
      MergeUpdatesGet(p, init, f);
      ApplyUpdateGet(q, updates[n], f);
      var last := LastWrite(init, FieldName(f));
      if last.Some? {
        assert updates[last.value] == init[last.value];
      }
    }
  }

  /** The merge never forgets: an attribute known before is known after. */
  lemma MergeKeepsKnown(p: Profile, updates: seq<(string, Option<Value>)>, f: Field)
    requires UpdatesWellTyped(updates)
    requires Get(p, f).Some?
    ensures Get(MergeUpdates(p, updates), f).Some?
  {
    MergeUpdatesGet(p, updates, f);
  }

  /** An attribute no update writes keeps its value. */
  lemma MergeLeavesOthers(p: Profile, updates: seq<(string, Option<Value>)>, f: Field)
    requires UpdatesWellTyped(updates)
    requires forall i :: 0 <= i < |updates| ==> !Writes(updates[i], FieldName(f))
    ensures Get(MergeUpdates(p, updates), f) == Get(p, f)
  {
    MergeUpdatesGet(p, updates, f);
  }

  /** So no turn lowers the number of known attributes, nor the completeness score. */
  lemma {:induction false} MergeNeverLowersKnownCount(p: Profile, updates: seq<(string, Option<Value>)>, fs: seq<Field>)
    requires UpdatesWellTyped(updates)
    ensures KnownCount(p, fs) <= KnownCount(MergeUpdates(p, updates), fs)
    decreases |fs|
  {
    if fs != [] {
      if Get(p, fs[0]).Some? {
        MergeKeepsKnown(p, updates, fs[0]);
      }
      MergeNeverLowersKnownCount(p, updates, fs[1..]);
    }
  }

  lemma MergeNeverLowersCompleteness(p: Profile, updates: seq<(string, Option<Value>)>)
    requires UpdatesWellTyped(updates)
    ensures CompletenessScore(p) <= CompletenessScore(MergeUpdates(p, updates))
  {
    MergeNeverLowersKnownCount(p, updates, CriticalFields);
  }

  // ---------------------------------------------------------------------------
  // Routing

  /** The handler that produces a turn's reply. */
  datatype Handler = GreetingHandler | DiscoveryHandler | RtiHandler | FinancialHandler

  /** The pillar an intent switches the session to; `None` leaves the pillar as it is. */
  function IntentPillar(intent: string): Option<string> {
    if intent == "greeting" then Some("greeting")
    else if intent == "scheme_discovery" || intent == "profile_update" then Some("scheme_discovery")
    else if intent == "rti" then Some("rti")
    else if intent == "financial" then Some("financial")
    else None
  }

  /** The pillar the session is in after a turn with `intent`. */
  function NextPillar(intent: string, current: string): string {
    var selected := IntentPillar(intent);
    if selected.Some? then selected.value else current
  }

  /** The pillar changes only on one of the five routing intents, only to one of the four
      pillars, and a repeated intent leaves it where the first one put it. */
  lemma PillarTransitions(intent: string, current: string)
    ensures var next := NextPillar(intent, current);
            && (next == current || next in ["greeting", "scheme_discovery", "rti", "financial"])
            && (next != current ==> intent in ["greeting", "scheme_discovery", "profile_update", "rti", "financial"])
            && NextPillar(intent, next) == next
  {
  }

  /** The handler that serves a pillar; an unrecognised pillar gets the greeting. */
  function PillarHandler(pillar: string): Handler {
    if pillar == "scheme_discovery" then DiscoveryHandler
    else if pillar == "rti" then RtiHandler
    else if pillar == "financial" then FinancialHandler
    else GreetingHandler
  }

  // ---------------------------------------------------------------------------
  // Scheme discovery

  /** What scheme discovery does with a profile. */
  datatype DiscoveryStep = AskNext(question: Question, first: bool) | RunMatcher

  lemma FirstUnknownIsEarly(p: Profile, q: Question)
    requires forall j :: 0 <= j < Rank(q) ==> Get(p, ProfilingOrder[j]).Some?
    requires KnownCount(p, CriticalFields) < 3
    ensures Rank(q) < 3
  {
    KnownCountCritical(p);
    assert 0 < Rank(q) ==> Get(p, ProfilingOrder[0]).Some?;
    assert 1 < Rank(q) ==> Get(p, ProfilingOrder[1]).Some?;
    assert 2 < Rank(q) ==> Get(p, ProfilingOrder[2]).Some?;
  }

  /** `_handle_scheme_discovery`'s decision: a question while fewer than three of the six
      critical attributes are known (with the introduction when none is), the matcher
      otherwise. Below three known, the first unknown critical attribute is always age,
      gender or state, so only those three are ever asked here. */
  function NextDiscoveryStep(p: Profile): (d: DiscoveryStep)
    ensures d.AskNext? <==> KnownCount(p, CriticalFields) < 3
    ensures d.AskNext? ==> (d.first <==> KnownCount(p, CriticalFields) == 0)
    ensures d.AskNext? ==> Get(p, ProfilingOrder[Rank(d.question)]).None?
    ensures d.AskNext? ==> forall j :: 0 <= j < Rank(d.question) ==> Get(p, ProfilingOrder[j]).Some?
    ensures d.AskNext? ==> d.question == AskAge || d.question == AskGender || d.question == AskState
  {
    CompletenessThresholds(p);
    var next := ProfilingQuestion(p);
    if next.Some? && CompletenessScore(p) < 0.5 then
      FirstUnknownIsEarly(p, next.value);
      AskNext(next.value, CompletenessScore(p) == 0.0)
    else
      RunMatcher
  }

  /** The matcher's result for `p` with the default limit. */
  function Ranked(p: Profile, catalog: seq<Scheme>): seq<Match> {
    PyPrefix(SortByScoreDesc(Candidates(p, catalog)), DefaultMaxResults)
  }

  /** The projection stored in `matched_schemes`: name, benefit and score of each match. */
  function Summarise(ms: seq<Match>): (r: seq<SchemeSummary>)
    ensures |r| == |ms|
    ensures forall i :: 0 <= i < |ms| ==>
              r[i] == SchemeSummary(ms[i].scheme.name, ms[i].scheme.benefitAmount, ms[i].score)
  {
    seq(|ms|, i requires 0 <= i < |ms| =>
      SchemeSummary(ms[i].scheme.name, ms[i].scheme.benefitAmount, ms[i].score))
  }

  /** Summary `x` is that of an eligible catalog scheme, with the scheme's relevance score. */
  ghost predicate SummarisesEligible(p: Profile, catalog: seq<Scheme>, x: SchemeSummary) {
    exists s :: s in catalog && PassesFilter(p, s.eligibility)
                && x == SchemeSummary(s.name, s.benefitAmount, RelevanceScore(p, s))
  }

  /** No eligible catalog scheme left out of the ranked matches scores above a stored summary. */
  ghost predicate NoneLeftOutScoresHigher(p: Profile, catalog: seq<Scheme>, ms: seq<SchemeSummary>) {
    forall s, i :: s in catalog && PassesFilter(p, s.eligibility)
                   && Match(s, RelevanceScore(p, s)) !in Ranked(p, catalog) && 0 <= i < |ms|
                   ==> RelevanceScore(p, s) <= ms[i].score
  }

  /** What scheme discovery stores: at most seven summaries, highest score first, each of an
      eligible catalog scheme with its relevance score. */
  lemma {:induction false} RankedSummaries(p: Profile, catalog: seq<Scheme>)
    ensures var ms := Summarise(Ranked(p, catalog));
            && |ms| == Min(DefaultMaxResults, |Candidates(p, catalog)|)
            && (forall i, j :: 0 <= i < j < |ms| ==> ms[i].score >= ms[j].score)
            && (forall i :: 0 <= i < |ms| ==> SummarisesEligible(p, catalog, ms[i]))
            && NoneLeftOutScoresHigher(p, catalog, ms)
  {
    var matches := Ranked(p, catalog);
    var ms := Summarise(matches);
    RankedMatches(p, catalog, DefaultMaxResults);
    forall i | 0 <= i < |ms| ensures SummarisesEligible(p, catalog, ms[i]) {
      assert matches[i] in matches;
      var s := matches[i].scheme;
      assert s in catalog && PassesFilter(p, s.eligibility)
             && ms[i] == SchemeSummary(s.name, s.benefitAmount, RelevanceScore(p, s));
    }
    forall i, j | 0 <= i < j < |ms| ensures ms[i].score >= ms[j].score {
      assert matches[i].score >= matches[j].score;
    }
    forall s, i | s in catalog && PassesFilter(p, s.eligibility)
                  && Match(s, RelevanceScore(p, s)) !in matches && 0 <= i < |ms|
      ensures RelevanceScore(p, s) <= ms[i].score
    {
      EligibleIsPassing(p, s);
      CandidatesMembership(p, catalog, Match(s, RelevanceScore(p, s)));
      assert matches[i] in matches;
    }
  }

  /** The reply of scheme discovery: the next question while one is to be asked, the
      explanation of the matches once the matcher runs. */
  function DiscoveryReply(p: Profile, language: string, explanation: string): string {
    match NextDiscoveryStep(p)
    case AskNext(q, first) => QuestionReply(q, first, language)
    case RunMatcher => explanation
  }

  /** The matches scheme discovery leaves in the session: the summaries of the ranked
      matches when the matcher runs, the `previous` ones when a question is asked. */
  function DiscoveryMatches(p: Profile, catalog: seq<Scheme>, previous: seq<SchemeSummary>)
    : seq<SchemeSummary>
  {
    if NextDiscoveryStep(p).RunMatcher? then Summarise(Ranked(p, catalog)) else previous
  }

  /** `_handle_scheme_discovery`: ask the next question, or run the matcher, store the
      projection of its result in the session and answer with the explanation. */
  method HandleSchemeDiscovery(session: Session, catalog: seq<Scheme>, language: string, explanation: string)
    returns (text: string)
    modifies session
    ensures text == DiscoveryReply(session.profile, language, explanation)
    ensures session.matchedSchemes == DiscoveryMatches(session.profile, catalog, old(session.matchedSchemes))
    ensures NextDiscoveryStep(session.profile).RunMatcher? ==>
              && |session.matchedSchemes| == Min(DefaultMaxResults, |Candidates(session.profile, catalog)|)
              && (forall i, j :: 0 <= i < j < |session.matchedSchemes| ==>
                    session.matchedSchemes[i].score >= session.matchedSchemes[j].score)
              && (forall i :: 0 <= i < |session.matchedSchemes| ==>
                    SummarisesEligible(session.profile, catalog, session.matchedSchemes[i]))
              && NoneLeftOutScoresHigher(session.profile, catalog, session.matchedSchemes)
    ensures session.profile == old(session.profile) && session.language == old(session.language)
    ensures session.currentPillar == old(session.currentPillar)
    ensures session.conversationHistory == old(session.conversationHistory)
    ensures session.sessionId == old(session.sessionId) && session.userId == old(session.userId)
    ensures session.createdAt == old(session.createdAt) && session.updatedAt == old(session.updatedAt)
  {
    var next := ProfilingQuestion(session.profile);
    CompletenessThresholds(session.profile);
    if next.Some? && CompletenessScore(session.profile) < 0.5 {
      text := QuestionReply(next.value, CompletenessScore(session.profile) == 0.0, language);
    } else {
      var matches := MatchSchemes(session.profile, catalog, DefaultMaxResults);
      session.matchedSchemes := Summarise(matches);
      text := explanation;
      RankedSummaries(session.profile, catalog);
    }
  }

  // ---------------------------------------------------------------------------
  // One turn

  /** The replies of the services the orchestrator calls without looking inside: the RTI
      assistant, the language model behind the financial advisor, and the explanation of
      the matched schemes. */
  datatype ServiceReplies = ServiceReplies(rti: string, financial: string, explanation: string)

  /** The speech requested for a reply: none for long replies; Hindi and English replies
      are spoken as they are; other languages have their first 300 characters translated to
      Hindi and spoken in Hindi. */
  datatype Speech = NoSpeech | Speak(text: string, voice: string) | TranslateThenSpeak(text: string, from: string)

  /** Audio is requested only for replies shorter than 500 characters. */
  function SpeechFor(text: string, language: string): (s: Speech)
    ensures s.NoSpeech? <==> |text| >= 500
    ensures s.Speak? ==> s.text == text && s.voice == language && (language == "hi" || language == "en")
    ensures s.TranslateThenSpeak? ==>
              s.text == text[..Min(300, |text|)] && s.from == language && language != "hi" && language != "en"
  {
    if |text| < 500 then
      if language == "hi" || language == "en" then Speak(PyPrefix(text, 500), language)
      else TranslateThenSpeak(PyPrefix(text, 300), language)
    else NoSpeech
  }

  /** The language step of `process_message`: a supported, non-empty detected language
      becomes the session's language; the turn goes on in the session's language. */
  method SwitchLanguage(session: Session, detected: Option<string>) returns (language: string)
    modifies session
    ensures language == session.language == NewLanguage(old(session.language), detected)
    ensures session.profile == old(session.profile) && session.currentPillar == old(session.currentPillar)
    ensures session.conversationHistory == old(session.conversationHistory)
    ensures session.matchedSchemes == old(session.matchedSchemes)
    ensures session.sessionId == old(session.sessionId) && session.userId == old(session.userId)
    ensures session.createdAt == old(session.createdAt) && session.updatedAt == old(session.updatedAt)
  {
    language := session.language;
    if detected.Some? && detected.value != "" && detected.value in SupportedLanguages {
      session.language := detected.value;
      language := detected.value;
    }
  }

  /** The merge loop of `process_message`: each update naming a profile attribute with a
      non-null value is written into the session's profile, in order. */
  method MergeProfile(session: Session, updates: seq<(string, Option<Value>)>)
    requires UpdatesWellTyped(updates)
    modifies session
    ensures session.profile == MergeUpdates(old(session.profile), updates)
    ensures session.language == old(session.language) && session.currentPillar == old(session.currentPillar)
    ensures session.conversationHistory == old(session.conversationHistory)
    ensures session.matchedSchemes == old(session.matchedSchemes)
    ensures session.sessionId == old(session.sessionId) && session.userId == old(session.userId)
    ensures session.createdAt == old(session.createdAt) && session.updatedAt == old(session.updatedAt)
  {
    for i := 0 to |updates|
      invariant session.profile == MergeUpdates(old(session.profile), updates[..i])
      invariant session.language == old(session.language) && session.currentPillar == old(session.currentPillar)
      invariant session.conversationHistory == old(session.conversationHistory)
      invariant session.matchedSchemes == old(session.matchedSchemes)
      invariant session.sessionId == old(session.sessionId) && session.userId == old(session.userId)
      invariant session.createdAt == old(session.createdAt) && session.updatedAt == old(session.updatedAt)
    {
      ghost var before := session.profile;
      var (name, value) := updates[i];
      var field := FieldNamed(name);
      if field.Some? && value.Some? {
        session.profile := With(session.profile, field.value, value.value);
      }
      assert session.profile == ApplyUpdate(before, updates[i]);
      assert updates[..i + 1][..i] == updates[..i] && updates[..i + 1][i] == updates[i];
      MergeUpdatesStep(old(session.profile), updates[..i + 1]);
    }
    assert updates[..|updates|] == updates;
  }

  /** The reply a turn gives once the session is in `pillar` with `profile`: the greeting,
      the next profiling question or the explanation of the matches, the RTI assistant's
      reply, or the financial advisor's answer. */
  function TurnReply(
    pillar: string, profile: Profile, userMessage: string, language: string, replies: ServiceReplies)
    : string
  {
    match PillarHandler(pillar)
    case GreetingHandler => GreetingText(language)
    case RtiHandler => replies.rti
    case FinancialHandler => HandleFinancialQuery(userMessage, language, replies.financial)
    case DiscoveryHandler => DiscoveryReply(profile, language, replies.explanation)
  }

  /** The matches stored after a turn: the projection of the ranked matches when scheme
      discovery runs the matcher, the previous ones otherwise. */
  function TurnMatches(
    pillar: string, profile: Profile, catalog: seq<Scheme>, previous: seq<SchemeSummary>)
    : seq<SchemeSummary>
  {
    if PillarHandler(pillar) == DiscoveryHandler then DiscoveryMatches(profile, catalog, previous)
    else previous
  }

  /** The handler of the pillar the session is in: scheme discovery, RTI and financial
      advice by name, the welcome message for any other pillar. */
  method HandlePillar(
    session: Session, userMessage: string, language: string, catalog: seq<Scheme>,
    replies: ServiceReplies)
    returns (text: string)
    modifies session
    ensures PillarHandler(session.currentPillar) == GreetingHandler ==> text == GreetingText(language)
    ensures PillarHandler(session.currentPillar) == RtiHandler ==> text == replies.rti
    ensures PillarHandler(session.currentPillar) == FinancialHandler ==>
              text == HandleFinancialQuery(userMessage, language, replies.financial)
    ensures PillarHandler(session.currentPillar) == DiscoveryHandler ==>
              text == DiscoveryReply(session.profile, language, replies.explanation)
    ensures session.matchedSchemes ==
              if PillarHandler(session.currentPillar) == DiscoveryHandler
              then DiscoveryMatches(session.profile, catalog, old(session.matchedSchemes))
              else old(session.matchedSchemes)
    ensures session.currentPillar == old(session.currentPillar)
    ensures session.profile == old(session.profile) && session.language == old(session.language)
    ensures session.conversationHistory == old(session.conversationHistory)
    ensures session.sessionId == old(session.sessionId) && session.userId == old(session.userId)
    ensures session.createdAt == old(session.createdAt) && session.updatedAt == old(session.updatedAt)
  {
    if session.currentPillar == "scheme_discovery" {
      text := HandleSchemeDiscovery(session, catalog, language, replies.explanation);
    } else if session.currentPillar == "rti" {
      text := replies.rti;
    } else if session.currentPillar == "financial" {
      text := HandleFinancialQuery(userMessage, language, replies.financial);
    } else {
      text := GreetingText(language);
    }
  }

  /** The pillar half of `process_message`'s routing chain: each of the five routing
      intents selects its pillar, any other intent leaves the session where it was. */
  method MovePillar(session: Session, intent: string)
    modifies session
    ensures session.currentPillar == NextPillar(intent, old(session.currentPillar))
    ensures session.profile == old(session.profile) && session.language == old(session.language)
    ensures session.matchedSchemes == old(session.matchedSchemes)
    ensures session.conversationHistory == old(session.conversationHistory)
    ensures session.sessionId == old(session.sessionId) && session.userId == old(session.userId)
    ensures session.createdAt == old(session.createdAt) && session.updatedAt == old(session.updatedAt)
  {
    if intent == "greeting" {
      session.currentPillar := "greeting";
    } else if intent == "scheme_discovery" || intent == "profile_update" {
      session.currentPillar := "scheme_discovery";
    } else if intent == "rti" {
      session.currentPillar := "rti";
    } else if intent == "financial" {
      session.currentPillar := "financial";
    }
  }

  /** The routing of `process_message`: the intent moves the pillar, and the reply comes
      from the handler of the pillar the session ends up in. Every branch of the source's
      chain calls the handler of the pillar it leaves the session in, so moving the pillar
      and calling its handler are two steps here. */
  method Route(
    session: Session, intent: string, userMessage: string, language: string, catalog: seq<Scheme>,
    replies: ServiceReplies)
    returns (text: string)
    modifies session
    ensures session.currentPillar == NextPillar(intent, old(session.currentPillar))
    ensures text == TurnReply(session.currentPillar, session.profile, userMessage, language, replies)
    ensures session.matchedSchemes ==
              TurnMatches(session.currentPillar, session.profile, catalog, old(session.matchedSchemes))
    ensures session.profile == old(session.profile) && session.language == old(session.language)
    ensures session.conversationHistory == old(session.conversationHistory)
    ensures session.sessionId == old(session.sessionId) && session.userId == old(session.userId)
    ensures session.createdAt == old(session.createdAt) && session.updatedAt == old(session.updatedAt)
  {
    MovePillar(session, intent);
    text := HandlePillar(session, userMessage, language, catalog, replies);
  }

  /** The result of `process_message` (the session itself is updated in place). */
  datatype Turn = Turn(text: string, speech: Speech, language: string, pillar: string, schemes: seq<SchemeSummary>)

  /** `process_message`: switch language, merge the extracted attributes, record the user's
      message, route to a pillar, record the reply and decide on speech. The reply always
      comes from the handler of the pillar the session ends the turn in. */
  method ProcessMessage(
    session: Session, userMessage: string, detected: IntentResult, catalog: seq<Scheme>,
    replies: ServiceReplies, userAt: real, replyAt: real)
    returns (turn: Turn)
    requires UpdatesWellTyped(detected.profileUpdates)
    modifies session
    ensures session.language == NewLanguage(old(session.language), detected.languageDetected)
    ensures session.profile == MergeUpdates(old(session.profile), detected.profileUpdates)
    ensures session.currentPillar == NextPillar(IntentOf(detected), old(session.currentPillar))
    ensures session.conversationHistory ==
              old(session.conversationHistory)
              + [Message("user", userMessage, userAt), Message("assistant", turn.text, replyAt)]
    ensures session.updatedAt == replyAt
    ensures session.sessionId == old(session.sessionId) && session.userId == old(session.userId)
    ensures session.createdAt == old(session.createdAt)
    ensures turn.text == TurnReply(session.currentPillar, session.profile, userMessage, session.language, replies)
    ensures session.matchedSchemes ==
              TurnMatches(session.currentPillar, session.profile, catalog, old(session.matchedSchemes))
    ensures turn == Turn(turn.text, SpeechFor(turn.text, session.language), session.language,
                         session.currentPillar, session.matchedSchemes)
  {
    var intent := IntentOf(detected);
    var language := SwitchLanguage(session, detected.languageDetected);

    MergeProfile(session, detected.profileUpdates);

    session.AddMessage("user", userMessage, userAt);

    var text := Route(session, intent, userMessage, language, catalog, replies);

    session.AddMessage("assistant", text, replyAt);

    turn := Turn(text, SpeechFor(text, language), language, session.currentPillar, session.matchedSchemes);
  }
}
