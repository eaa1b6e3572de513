/** Rule-based financial checks (app/services/financial_advisor.py): scam keywords,
    predatory-rate bands and loan-parameter validation. */
module FinancialAdvisor {
  import opened Wrappers
  import opened Text

  // ---------------------------------------------------------------------------
  // Scam detection

  /** A known scam: its trigger keywords (lower case) and the alert in Hindi and English. */
  datatype ScamPattern = ScamPattern(keywords: seq<string>, alertHi: string, alertEn: string)

  /** `SCAM_PATTERNS`, in the order they are tried. */
  const ScamPatterns: seq<ScamPattern> := [
    ScamPattern(
      ["otp", "share otp", "otp batao", "otp do"],
      "🚨 ख़तरा! " +
        "OTP कभी किसी को मत दीजिए। " +
        "कोई भी बैंक या सरकारी अधिकारी OTP नहीं मांगता। " +
        "यह 100% FRAUD है।",
      "🚨 DANGER! " +
        "Never share your OTP with anyone. " +
        "No bank or government official ever asks for OTP. " +
        "This is 100% FRAUD."),
    ScamPattern(
      ["advance fee", "processing fee pehle", "pehle paisa do", "loan ke liye paisa"],
      "🚨 ख़तरा! " +
        "लोन लेने के लिए पहले पैसा देना FRAUD है। " +
        "कोई भी सरकारी योजना या बैंक पहले पैसा नहीं मांगता।",
      "🚨 DANGER! " +
        "Paying money upfront to get a loan is FRAUD. " +
        "No government scheme or bank asks for advance payment."),
    ScamPattern(
      ["lottery", "prize", "jackpot", "inam", "crore jeet"],
      "🚨 ख़तरा! " +
        "यह FRAUD है। " +
        "आपने कोई लॉटरी नहीं जीती। " +
        "पैसा बिल्कुल मत दीजिए।",
      "🚨 DANGER! " +
        "This is FRAUD. " +
        "You have not won any lottery. " +
        "Do NOT send any money."),
    ScamPattern(
      ["insurance expire", "kyc update", "account block", "account band"],
      "🚨 सावधान! " +
        "यह शायद FRAUD है। " +
        "बैंक कभी फोन पर KYC update नहीं करवाता। " +
        "अपने नज़दीकी बैंक ब्रांच में जाकर पूछें।",
      "🚨 CAUTION! " +
        "This is likely FRAUD. " +
        "Banks never do KYC updates over phone. " +
        "Visit your nearest bank branch."),
    ScamPattern(
      ["link click", "click karo", "link open", "form bharo online"],
      "🚨 सावधान! " +
        "अनजान लिंक पर क्लिक मत करें। " +
        "हमेशा सरकारी वेबसाइट (.gov.in) पर ही जाएं।",
      "🚨 CAUTION! " +
        "Do not click unknown links. " +
        "Always visit official government websites (.gov.in).")
  ]

  /** Some keyword of `pattern` occurs in `text`. */
  ghost predicate PatternMatches(pattern: ScamPattern, text: string) {
    exists k :: k in pattern.keywords && IsSubstring(k, text)
  }

  /** The inner loop: does any of `keywords` occur in `text`? */
  function AnyKeywordIn(keywords: seq<string>, text: string): (found: bool)
    ensures found <==> exists k :: k in keywords && IsSubstring(k, text)
  {
    if keywords == [] then false
    else
      ContainsIsSubstring(text, keywords[0]);
      assert forall k :: k in keywords <==> k == keywords[0] || k in keywords[1..];
      Contains(text, keywords[0]) || AnyKeywordIn(keywords[1..], text)
  }

  /** The outer loop: the index of the first pattern with a keyword in `text`. */
  function FirstMatchingPattern(patterns: seq<ScamPattern>, text: string): (r: Option<nat>)
    ensures r.None? <==> forall i :: 0 <= i < |patterns| ==> !PatternMatches(patterns[i], text)
    ensures r.Some? ==> r.value < |patterns| && PatternMatches(patterns[r.value], text)
    ensures r.Some? ==> forall i :: 0 <= i < r.value ==> !PatternMatches(patterns[i], text)
  {
    if patterns == [] then None
    else if AnyKeywordIn(patterns[0].keywords, text) then Some(0)
    else
      var rest := FirstMatchingPattern(patterns[1..], text);
      assert forall i :: 1 <= i < |patterns| ==> patterns[i] == patterns[1..][i - 1];
      if rest.None? then None else Some(rest.value + 1)
  }

  /** The result of `detect_scam`. */
  datatype ScamCheck = NotScam | Scam(alertHi: string, alertEn: string)

  /** `detect_scam`: a scam exactly when some keyword occurs in the lower-cased text; the
      alerts are those of the earliest pattern that matches. */
  function DetectScam(text: string): (r: ScamCheck)
    ensures r.NotScam? <==>
              forall i :: 0 <= i < |ScamPatterns| ==> !PatternMatches(ScamPatterns[i], Lower(text))
    ensures r.Scam? ==>
              exists i ::
                && 0 <= i < |ScamPatterns|
                && PatternMatches(ScamPatterns[i], Lower(text))
                && (forall j :: 0 <= j < i ==> !PatternMatches(ScamPatterns[j], Lower(text)))
                && r == Scam(ScamPatterns[i].alertHi, ScamPatterns[i].alertEn)
  {
    var first := FirstMatchingPattern(ScamPatterns, Lower(text));
    if first.None? then NotScam
    else Scam(ScamPatterns[first.value].alertHi, ScamPatterns[first.value].alertEn)
  }

  /** The alert looked up under the key `alert_` followed by the language code, English
      when there is no such key: the Hindi alert for Hindi, the English one otherwise. */
  function AlertFor(alertHi: string, alertEn: string, language: string): string {
    if "alert_" + language == "alert_hi" then alertHi else alertEn
  }

  /** `handle_financial_query`: a scam message is answered with its alert and never reaches
      the text generator; any other message gets the generator's reply `generated`. */
  function HandleFinancialQuery(message: string, language: string, generated: string): (reply: string)
    ensures DetectScam(message).Scam? && language == "hi" ==> reply == DetectScam(message).alertHi
    ensures DetectScam(message).Scam? && language != "hi" ==> reply == DetectScam(message).alertEn
    ensures DetectScam(message).NotScam? ==> reply == generated
  {
    var check := DetectScam(message);
    assert "alert_" + language == "alert_hi" <==> language == "hi" by {
      if "alert_" + language == "alert_hi" {
        assert language == ("alert_" + language)[6..];
      }
    }
    if check.Scam? then AlertFor(check.alertHi, check.alertEn, language) else generated
  }

  // ---------------------------------------------------------------------------
  // Interest-rate checks

  /** A government loan alternative. */
  datatype LoanScheme = LoanScheme(name: string, rate: string, amount: string, audience: string)

  /** `GOVT_LOAN_SCHEMES`. */
  const GovtLoanSchemes: seq<LoanScheme> := [
    LoanScheme("PM MUDRA Yojana", "7-9%", "Up to ₹10 lakh", "Small business"),
    LoanScheme("PM SVANidhi", "7% subsidy", "₹10,000-₹50,000", "Street vendors"),
    LoanScheme("KCC (Kisan Credit Card)", "4% (subsidized)", "Up to ₹3 lakh", "Farmers"),
    LoanScheme("Stand-Up India", "Bank rate", "₹10 lakh - ₹1 crore", "SC/ST/Women entrepreneurs"),
    LoanScheme("PMEGP", "25-35% subsidy", "Up to ₹50 lakh", "New businesses"),
    LoanScheme("SHG Bank Linkage", "4-7%", "Up to ₹20 lakh", "Women's Self Help Groups")
  ]

  /** Annual rates above this are predatory. */
  const PredatoryRate: real := 36.0

  /** Annual rates above this are high. */
  const HighRate: real := 24.0

  /** The keys of `detect_predatory_lending`'s result; a `None` is a key the result lacks. */
  datatype LendingCheck = LendingCheck(
    isPredatory: bool,
    isHigh: Option<bool>,
    alternatives: Option<seq<LoanScheme>>)

  /** `detect_predatory_lending`: three bands on the annual rate. */
  function DetectPredatoryLending(annualRate: real): (r: LendingCheck)
    ensures r.isPredatory <==> annualRate > PredatoryRate
    ensures r.isPredatory ==> r.isHigh.None?
    ensures !r.isPredatory ==> r.isHigh == Some(annualRate > HighRate)
    ensures r.alternatives.Some? <==> annualRate > HighRate
    ensures r.alternatives.Some? ==> r.alternatives.value == GovtLoanSchemes[..3]
  {
    if annualRate > PredatoryRate then LendingCheck(true, None, Some(GovtLoanSchemes[..3]))
    else if annualRate > HighRate then LendingCheck(false, Some(true), Some(GovtLoanSchemes[..3]))
    else LendingCheck(false, Some(false), None)
  }

  datatype RiskLevel = Low | Medium | High

  /** The part of `calculate_emi`'s result that is not floating-point arithmetic. */
  datatype LoanAssessment = LoanAssessment(
    principal: real,
    annualRate: real,
    tenureMonths: int,
    isPredatory: bool,
    riskLevel: RiskLevel)

  /** `calculate_emi`'s validation and risk banding. */
  function AssessLoan(principal: real, annualRate: real, tenureMonths: int): (r: Result<LoanAssessment, string>)
    ensures r.Failure? <==> annualRate <= 0.0 || tenureMonths <= 0 || principal <= 0.0
    ensures r.Failure? ==> r.error == "Invalid loan parameters"
    ensures r.Success? ==> r.value.principal == principal && r.value.annualRate == annualRate
                           && r.value.tenureMonths == tenureMonths
  {
    if annualRate <= 0.0 || tenureMonths <= 0 || principal <= 0.0 then
      Failure("Invalid loan parameters")
    else
      Success(LoanAssessment(
        principal, annualRate, tenureMonths,
        annualRate > PredatoryRate,
        if annualRate > PredatoryRate then High else if annualRate > HighRate then Medium else Low))
  }

  /** The loan calculator and the predatory-lending check band every valid rate alike:
      HIGH is predatory, MEDIUM is high but not predatory, LOW is neither. */
  lemma RiskBandsAgree(principal: real, annualRate: real, tenureMonths: int)
    requires AssessLoan(principal, annualRate, tenureMonths).Success?
    ensures var a := AssessLoan(principal, annualRate, tenureMonths).value;
            var c := DetectPredatoryLending(annualRate);
            && a.isPredatory == c.isPredatory
            && (a.riskLevel == High <==> c.isPredatory)
            && (a.riskLevel == Medium <==> c.isHigh == Some(true))
            && (a.riskLevel == Low <==> c.isHigh == Some(false))
            && (a.riskLevel == Low <==> c.alternatives.None?)
  {
  }
}
