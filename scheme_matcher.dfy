/** Scheme eligibility matching and progressive profiling (app/services/scheme_matcher.py). */
module SchemeMatcher {
  import opened Wrappers
  import opened Slices
  import opened Text
  import opened Schemas

  /** A scheme's `eligibility` rule set. Every recognised key is optional (`None` when
      absent); `unrecognisedKeys` counts the keys the matcher does not know. */
  datatype Rules = Rules(
    ageMin: Option<int>,
    ageMax: Option<int>,
    gender: Option<seq<string>>,
    states: Option<seq<string>>,
    occupations: Option<seq<string>>,
    categories: Option<seq<string>>,
    incomeMax: Option<int>,
    bplRequired: Option<bool>,
    disabilityRequired: Option<bool>,
    disability: Option<bool>,
    landRequired: Option<bool>,
    maritalStatus: Option<seq<string>>,
    unrecognisedKeys: nat)
  {
    /** No recognised key is present. */
    predicate NoRecognisedRule() {
      ageMin.None? && ageMax.None? && gender.None? && states.None? && occupations.None?
      && categories.None? && incomeMax.None? && bplRequired.None? && disabilityRequired.None?
      && disability.None? && landRequired.None? && maritalStatus.None?
    }

    /** `not rules`: the dictionary has no key at all. */
    predicate IsEmpty() {
      NoRecognisedRule() && unrecognisedKeys == 0
    }
  }

  /** A catalog record: the parts of a scheme the matcher and the orchestrator read.
      A missing `eligibility` is the empty rule set. */
  datatype Scheme = Scheme(name: string, benefitAmount: string, eligibility: Rules)

  /** A candidate match: the scheme and its relevance score. */
  datatype Match = Match(scheme: Scheme, score: int)

  /** `match_schemes`'s default `max_results`. */
  const DefaultMaxResults: int := 7

  /** Python truthiness of an optional flag: present and true. */
  predicate IsTrue(b: Option<bool>) { b == Some(true) }

  /** Python truthiness of an optional string: present and non-empty. */
  predicate IsNonEmpty(s: Option<string>) { s.Some? && s.value != "" }

  // ---------------------------------------------------------------------------
  // Hard filter

  function LowerAll(ss: seq<string>): (r: seq<string>)
    ensures |r| == |ss|
    ensures forall i :: 0 <= i < |ss| ==> r[i] == Lower(ss[i])
  {
    seq(|ss|, i requires 0 <= i < |ss| => Lower(ss[i]))
  }

  /** The state is in the list once both are lower-cased. */
  function StateAllowed(state: string, states: seq<string>): (ok: bool)
    ensures ok <==> exists t :: t in states && Lower(t) == Lower(state)
  {
    var lowered := LowerAll(states);
    assert forall t :: t in states ==> Lower(t) in lowered;
    Lower(state) in lowered
  }

  /** The kinds of hard rule a rule set can hold. */
  datatype RuleKind =
    | AgeMinRule | AgeMaxRule | GenderRule | StatesRule | OccupationsRule | CategoriesRule
    | IncomeMaxRule | BplRule | DisabilityRule | LandRule | MaritalStatusRule

  /** The profile attribute a rule constrains. */
  function Constrains(k: RuleKind): Field {
    match k
    case AgeMinRule | AgeMaxRule => Age
    case GenderRule => Gender
    case StatesRule => State
    case OccupationsRule => Occupation
    case CategoriesRule => Category
    case IncomeMaxRule => AnnualIncome
    case BplRule => BplStatus
    case DisabilityRule => Disability
    case LandRule => LandOwnership
    case MaritalStatusRule => MaritalStatus
  }

  /** Rule `k` is present in `r`, the attribute it constrains is known, and the known
      value breaks it: age bounds are inclusive, state membership ignores case, the other
      lists need exact membership, income may equal the maximum, and the three flags reject
      only a known false. */
  predicate Violates(p: Profile, r: Rules, k: RuleKind) {
    match k
    case AgeMinRule => r.ageMin.Some? && p.age.Some? && p.age.value < r.ageMin.value
    case AgeMaxRule => r.ageMax.Some? && p.age.Some? && p.age.value > r.ageMax.value
    case GenderRule => r.gender.Some? && p.gender.Some? && p.gender.value !in r.gender.value
    case StatesRule =>
      r.states.Some? && p.state.Some? && !exists t :: t in r.states.value && Lower(t) == Lower(p.state.value)
    case OccupationsRule =>
      r.occupations.Some? && p.occupation.Some? && p.occupation.value !in r.occupations.value
    case CategoriesRule => r.categories.Some? && p.category.Some? && p.category.value !in r.categories.value
    case IncomeMaxRule =>
      r.incomeMax.Some? && p.annualIncome.Some? && p.annualIncome.value > r.incomeMax.value
    case BplRule => IsTrue(r.bplRequired) && p.bplStatus == Some(false)
    case DisabilityRule => (IsTrue(r.disabilityRequired) || IsTrue(r.disability)) && p.disability == Some(false)
    case LandRule => IsTrue(r.landRequired) && p.landOwnership == Some(false)
    case MaritalStatusRule =>
      r.maritalStatus.Some? && p.maritalStatus.Some? && p.maritalStatus.value !in r.maritalStatus.value
  }

  /** `_passes_filter`: the source's chain of early returns. It passes exactly when no rule
      is violated, so an unknown attribute never disqualifies. */
  function PassesFilter(p: Profile, r: Rules): (ok: bool)
    ensures r.NoRecognisedRule() ==> ok
    ensures p == EmptyProfile ==> ok
  {
    if r.ageMin.Some? && p.age.Some? && p.age.value < r.ageMin.value then false
    else if r.ageMax.Some? && p.age.Some? && p.age.value > r.ageMax.value then false
    else if r.gender.Some? && p.gender.Some? && p.gender.value !in r.gender.value then false
    else if r.states.Some? && p.state.Some? && !StateAllowed(p.state.value, r.states.value) then false
    else if r.occupations.Some? && p.occupation.Some? && p.occupation.value !in r.occupations.value then false
    else if r.categories.Some? && p.category.Some? && p.category.value !in r.categories.value then false
    else if r.incomeMax.Some? && p.annualIncome.Some? && p.annualIncome.value > r.incomeMax.value then false
    else if IsTrue(r.bplRequired) && p.bplStatus.Some? && !p.bplStatus.value then false
    else if (IsTrue(r.disabilityRequired) || IsTrue(r.disability)) && p.disability.Some? && !p.disability.value then false
    else if IsTrue(r.landRequired) && p.landOwnership.Some? && !p.landOwnership.value then false
    else if r.maritalStatus.Some? && p.maritalStatus.Some? && p.maritalStatus.value !in r.maritalStatus.value then false
    else true
  }

  /** The order of the checks does not matter: a profile passes exactly when it violates
      no rule. */
  lemma PassesFilterIffNoViolation(p: Profile, r: Rules)
    ensures PassesFilter(p, r) <==> forall k :: !Violates(p, r, k)
  {
    if PassesFilter(p, r) {
      forall k ensures !Violates(p, r, k) {
        PassingViolatesNothing(p, r, k);
      }
    } else {
      RejectionHasViolation(p, r);
    }
  }

  lemma PassingViolatesNothing(p: Profile, r: Rules, k: RuleKind)
    requires PassesFilter(p, r)
    ensures !Violates(p, r, k)
  {
    match k
    case AgeMinRule =>
    case AgeMaxRule =>
    case GenderRule =>
    case StatesRule =>
    case OccupationsRule =>
    case CategoriesRule =>
    case IncomeMaxRule =>
    case BplRule =>
    case DisabilityRule =>
    case LandRule =>
    case MaritalStatusRule =>
  }

  lemma RejectionHasViolation(p: Profile, r: Rules)
    requires !PassesFilter(p, r)
    ensures exists k :: Violates(p, r, k)
  {
    if r.ageMin.Some? && p.age.Some? && p.age.value < r.ageMin.value {
      assert Violates(p, r, AgeMinRule);
    } else if r.ageMax.Some? && p.age.Some? && p.age.value > r.ageMax.value {
      assert Violates(p, r, AgeMaxRule);
    } else if r.gender.Some? && p.gender.Some? && p.gender.value !in r.gender.value {
      assert Violates(p, r, GenderRule);
    } else if r.states.Some? && p.state.Some? && !StateAllowed(p.state.value, r.states.value) {
      assert Violates(p, r, StatesRule);
    } else if r.occupations.Some? && p.occupation.Some? && p.occupation.value !in r.occupations.value {
      assert Violates(p, r, OccupationsRule);
    } else if r.categories.Some? && p.category.Some? && p.category.value !in r.categories.value {
      assert Violates(p, r, CategoriesRule);
    } else if r.incomeMax.Some? && p.annualIncome.Some? && p.annualIncome.value > r.incomeMax.value {
      assert Violates(p, r, IncomeMaxRule);
    } else if IsTrue(r.bplRequired) && p.bplStatus.Some? && !p.bplStatus.value {
      assert Violates(p, r, BplRule);
    } else if (IsTrue(r.disabilityRequired) || IsTrue(r.disability)) && p.disability.Some? && !p.disability.value {
      assert Violates(p, r, DisabilityRule);
    } else if IsTrue(r.landRequired) && p.landOwnership.Some? && !p.landOwnership.value {
      assert Violates(p, r, LandRule);
    } else {
      assert Violates(p, r, MaritalStatusRule);
    }
  }

  /** A rule only ever rejects on a known attribute. */
  lemma ViolationNeedsKnownAttribute(p: Profile, r: Rules, k: RuleKind)
    requires Violates(p, r, k)
    ensures Get(p, Constrains(k)).Some?
  {
  }

  /** `q` knows no more than `p`: every attribute `q` knows, `p` knows with the same value. */
  ghost predicate KnowsLess(q: Profile, p: Profile) {
    forall f :: Get(q, f).Some? ==> Get(q, f) == Get(p, f)
  }

  /** A rule the less-informed profile breaks, the better-informed one breaks too. */
  lemma ViolationTransfers(p: Profile, q: Profile, r: Rules, k: RuleKind)
    requires Get(q, Constrains(k)).Some? ==> Get(q, Constrains(k)) == Get(p, Constrains(k))
    ensures Violates(q, r, k) ==> Violates(p, r, k)
  {
    match k
    case AgeMinRule =>
    case AgeMaxRule =>
    case GenderRule =>
    case StatesRule =>
    case OccupationsRule =>
    case CategoriesRule =>
    case IncomeMaxRule =>
    case BplRule =>
    case DisabilityRule =>
    case LandRule =>
    case MaritalStatusRule =>
  }

  /** Forgetting attributes never turns a pass into a rejection. */
  lemma {:induction false} ForgettingNeverDisqualifies(p: Profile, q: Profile, r: Rules)
    requires KnowsLess(q, p)
    requires PassesFilter(p, r)
    ensures PassesFilter(q, r)
  {
    PassesFilterIffNoViolation(p, r);
    PassesFilterIffNoViolation(q, r);
    forall k ensures !Violates(q, r, k) {
      ViolationTransfers(p, q, r, k);
    }
  }


  /** The state rule does not see letter case. */
  lemma StateMatchIgnoresCase(p: Profile, r: Rules, s1: string, s2: string)
    requires Lower(s1) == Lower(s2)
    ensures PassesFilter(p.(state := Some(s1)), r) == PassesFilter(p.(state := Some(s2)), r)
  {
  }

  // ---------------------------------------------------------------------------
  // Relevance score

  predicate OccupationBonus(p: Profile, r: Rules) {
    r.occupations.Some? && IsNonEmpty(p.occupation) && p.occupation.value in r.occupations.value
  }

  predicate CategoryBonus(p: Profile, r: Rules) {
    r.categories.Some? && IsNonEmpty(p.category) && p.category.value in r.categories.value
  }

  predicate GenderBonus(p: Profile, r: Rules) {
    r.gender.Some? && IsNonEmpty(p.gender) && p.gender.value in r.gender.value
  }

  predicate BplBonus(p: Profile, r: Rules) {
    IsTrue(r.bplRequired) && IsTrue(p.bplStatus)
  }

  /** The benefit text mentions "lakh" (any case) or the literal five-lakh rupee amount. */
  predicate HighValueBenefit(benefit: string) {
    Contains(Lower(benefit), "lakh") || Contains(benefit, "\U{20B9}5,00,000")
  }

  function Points(earned: bool, points: nat): nat { if earned then points else 0 }

  /** `_relevance_score`: 50 for passing, plus independent bonuses, capped at 100.
      The five bonuses add up to at most 50, so the cap never takes effect. */
  function RelevanceScore(p: Profile, s: Scheme): (score: int)
    ensures 50 <= score <= 100
    ensures score == 50 + Points(OccupationBonus(p, s.eligibility), 15)
                         + Points(CategoryBonus(p, s.eligibility), 10)
                         + Points(GenderBonus(p, s.eligibility), 10)
                         + Points(BplBonus(p, s.eligibility), 10)
                         + Points(HighValueBenefit(s.benefitAmount), 5)
  {
    var rules := s.eligibility;
    var score0 := 50;
    var score1 := if OccupationBonus(p, rules) then score0 + 15 else score0;
    var score2 := if CategoryBonus(p, rules) then score1 + 10 else score1;
    var score3 := if GenderBonus(p, rules) then score2 + 10 else score2;
    var score4 := if BplBonus(p, rules) then score3 + 10 else score3;
    var score5 := if HighValueBenefit(s.benefitAmount) then score4 + 5 else score4;
    Min(score5, 100)
  }

  /** Meeting more bonus conditions never lowers the score. */
  lemma ScoreMonotone(p: Profile, s: Scheme, q: Profile, t: Scheme)
    requires OccupationBonus(p, s.eligibility) ==> OccupationBonus(q, t.eligibility)
    requires CategoryBonus(p, s.eligibility) ==> CategoryBonus(q, t.eligibility)
    requires GenderBonus(p, s.eligibility) ==> GenderBonus(q, t.eligibility)
    requires BplBonus(p, s.eligibility) ==> BplBonus(q, t.eligibility)
    requires HighValueBenefit(s.benefitAmount) ==> HighValueBenefit(t.benefitAmount)
    ensures RelevanceScore(p, s) <= RelevanceScore(q, t)
  {
  }

  // ---------------------------------------------------------------------------
  // Matching

  /** A scheme is a candidate when its rule set is empty or the profile passes it. */
  predicate Eligible(p: Profile, s: Scheme) {
    s.eligibility.IsEmpty() || PassesFilter(p, s.eligibility)
  }

  /** The empty-rule-set shortcut agrees with the filter itself. */
  lemma EligibleIsPassing(p: Profile, s: Scheme)
    ensures Eligible(p, s) == PassesFilter(p, s.eligibility)
  {
  }

  /** Keys the matcher does not recognise never change the verdict, not even through the
      `not rules` shortcut, which they do switch off. */
  lemma UnrecognisedKeysIgnored(p: Profile, s: Scheme, n: nat)
    ensures var t := s.(eligibility := s.eligibility.(unrecognisedKeys := n));
      && PassesFilter(p, t.eligibility) == PassesFilter(p, s.eligibility)
      && Eligible(p, t) == Eligible(p, s)
  {
    var t := s.(eligibility := s.eligibility.(unrecognisedKeys := n));
    EligibleIsPassing(p, s);
    EligibleIsPassing(p, t);
  }

  /** The candidate list the loop builds, in catalog order. */
  function Candidates(p: Profile, catalog: seq<Scheme>): seq<Match>
  {
    if catalog == [] then []
    else
      var rest := Candidates(p, catalog[..|catalog| - 1]);
      var s := catalog[|catalog| - 1];
      if Eligible(p, s) then rest + [Match(s, RelevanceScore(p, s))] else rest
  }

  /** The candidates are exactly the eligible catalog schemes, each with its own score. */
  lemma {:induction false} CandidatesMembership(p: Profile, catalog: seq<Scheme>, m: Match)
    ensures m in Candidates(p, catalog) <==>
              m.scheme in catalog && Eligible(p, m.scheme) && m.score == RelevanceScore(p, m.scheme)
  {
    if catalog != [] {
      var init := catalog[..|catalog| - 1];
      CandidatesMembership(p, init, m);
      assert catalog == init + [catalog[|catalog| - 1]];
    }
  }

  // Stable sort by score, highest first.

  predicate NonIncreasing(ms: seq<Match>) {
    forall i, j :: 0 <= i < j < |ms| ==> ms[i].score >= ms[j].score
  }

  /** The matches of `ms` whose score is `v`, in their order in `ms`. */
  function WithScore(ms: seq<Match>, v: int): seq<Match> {
    if ms == [] then []
    else (if ms[0].score == v then [ms[0]] else []) + WithScore(ms[1..], v)
  }

  lemma {:induction false} WithScoreAppend(a: seq<Match>, b: seq<Match>, v: int)
    ensures WithScore(a + b, v) == WithScore(a, v) + WithScore(b, v)
  {
    if a == [] {
      assert a + b == b;
    } else {
      var head := if a[0].score == v then [a[0]] else [];
      assert (a + b)[0] == a[0];
      assert (a + b)[1..] == a[1..] + b;
      WithScoreAppend(a[1..], b, v);
      calc {
        WithScore(a + b, v);
        head + WithScore(a[1..] + b, v);
        head + (WithScore(a[1..], v) + WithScore(b, v));
        (head + WithScore(a[1..], v)) + WithScore(b, v);
        WithScore(a, v) + WithScore(b, v);
      }
    }
  }

  /** Places `m` after every match scoring higher and before the rest. */
  function InsertByScore(m: Match, sorted: seq<Match>): seq<Match> {
    if sorted == [] || sorted[0].score <= m.score then [m] + sorted
    else [sorted[0]] + InsertByScore(m, sorted[1..])
  }

  /** A match scoring at least as high as every match of a sorted list can go in front. */
  lemma ConsNonIncreasing(x: Match, r: seq<Match>)
    requires NonIncreasing(r)
    requires forall i :: 0 <= i < |r| ==> x.score >= r[i].score
    ensures NonIncreasing([x] + r)
  {
    var res := [x] + r;
    forall i, j | 0 <= i < j < |res| ensures res[i].score >= res[j].score {
      assert res[j] == r[j - 1];
      if i > 0 {
        assert res[i] == r[i - 1];
      }
    }
  }

  /** Inserting adds `m` and loses nothing. */
  lemma {:induction false} InsertByScorePermutes(m: Match, sorted: seq<Match>)
    ensures multiset(InsertByScore(m, sorted)) == multiset(sorted) + multiset{m}
  {
    if sorted == [] || sorted[0].score <= m.score {
      assert multiset([m] + sorted) == multiset{m} + multiset(sorted);
    } else {
      var tail := sorted[1..];
      InsertByScorePermutes(m, tail);
      assert sorted == [sorted[0]] + tail;
      assert multiset(sorted) == multiset{sorted[0]} + multiset(tail);
      assert multiset([sorted[0]] + InsertByScore(m, tail))
          == multiset{sorted[0]} + multiset(InsertByScore(m, tail));
    }
  }

  /** Inserting a match scoring at most `bound` into matches scoring at most `bound`
      yields matches scoring at most `bound`. */
  lemma {:induction false} InsertByScoreBounded(m: Match, s: seq<Match>, bound: int)
    requires m.score <= bound
    requires forall i :: 0 <= i < |s| ==> s[i].score <= bound
    ensures forall i :: 0 <= i < |InsertByScore(m, s)| ==> InsertByScore(m, s)[i].score <= bound
  {
    if s == [] || s[0].score <= m.score {
      var r := [m] + s;
      forall i | 0 <= i < |r| ensures r[i].score <= bound {
        if i > 0 {
          assert r[i] == s[i - 1];
        }
      }
    } else {
      var tail := s[1..];
      InsertByScoreBounded(m, tail, bound);
      var r := [s[0]] + InsertByScore(m, tail);
      forall i | 0 <= i < |r| ensures r[i].score <= bound {
        if i > 0 {
          assert r[i] == InsertByScore(m, tail)[i - 1];
        }
      }
    }
  }

  /** Inserting into a sorted list keeps it sorted. */
  lemma {:induction false} InsertByScoreSorted(m: Match, sorted: seq<Match>)
    requires NonIncreasing(sorted)
    ensures NonIncreasing(InsertByScore(m, sorted))
  {
    if sorted == [] || sorted[0].score <= m.score {
      ConsNonIncreasing(m, sorted);
    } else {
      var tail := sorted[1..];
      assert NonIncreasing(tail) by {
        forall i, j | 0 <= i < j < |tail| ensures tail[i].score >= tail[j].score {
          assert tail[i] == sorted[i + 1] && tail[j] == sorted[j + 1];
        }
      }
      InsertByScoreSorted(m, tail);
      assert forall i :: 0 <= i < |tail| ==> tail[i] == sorted[i + 1];
      InsertByScoreBounded(m, tail, sorted[0].score);
      ConsNonIncreasing(sorted[0], InsertByScore(m, tail));
    }
  }

  /** Inserting `m` adds it to the matches of its own score ahead of them, and changes no
      other score's matches: every match it is placed after scores strictly higher. */
  lemma {:induction false} InsertByScoreWithScore(m: Match, sorted: seq<Match>, v: int)
    ensures WithScore(InsertByScore(m, sorted), v) ==
              (if m.score == v then [m] else []) + WithScore(sorted, v)
  {
    var mine := if m.score == v then [m] else [];
    if sorted == [] || sorted[0].score <= m.score {
      assert ([m] + sorted)[0] == m;
      assert ([m] + sorted)[1..] == sorted;
    } else {
      var tail := sorted[1..];
      var r := InsertByScore(m, tail);
      var head := if sorted[0].score == v then [sorted[0]] else [];
      InsertByScoreWithScore(m, tail, v);
      assert ([sorted[0]] + r)[0] == sorted[0];
      assert ([sorted[0]] + r)[1..] == r;
      assert head == [] || mine == [];
      calc {
        WithScore(InsertByScore(m, sorted), v);
        WithScore([sorted[0]] + r, v);
        head + WithScore(r, v);
        head + (mine + WithScore(tail, v));
        mine + (head + WithScore(tail, v));
        mine + WithScore(sorted, v);
      }
    }
  }

  /** Python's stable `sort(key=score, reverse=True)`, as an insertion sort. */
  function SortByScoreDesc(ms: seq<Match>): seq<Match> {
    if ms == [] then [] else InsertByScore(ms[0], SortByScoreDesc(ms[1..]))
  }

  /** The sort yields a non-increasing permutation that keeps, for every score, the order
      of the matches with that score: it is stable. */
  lemma {:induction false} SortByScoreDescCorrect(ms: seq<Match>, v: int)
    ensures NonIncreasing(SortByScoreDesc(ms))
    ensures multiset(SortByScoreDesc(ms)) == multiset(ms)
    ensures WithScore(SortByScoreDesc(ms), v) == WithScore(ms, v)
  {
    if ms != [] {
      var rest := SortByScoreDesc(ms[1..]);
      SortByScoreDescCorrect(ms[1..], v);
      InsertByScorePermutes(ms[0], rest);
      InsertByScoreSorted(ms[0], rest);
      InsertByScoreWithScore(ms[0], rest, v);
      assert ms == [ms[0]] + ms[1..];
      assert multiset(ms) == multiset{ms[0]} + multiset(ms[1..]);
      assert WithScore(ms, v) == (if ms[0].score == v then [ms[0]] else []) + WithScore(ms[1..], v);
    }
  }

  predicate IsPrefix(a: seq<Match>, b: seq<Match>) {
    |a| <= |b| && a == b[..|a|]
  }

  /** Keeping a prefix keeps a prefix of every score's matches. */
  lemma {:induction false} WithScoreOfPrefix(ms: seq<Match>, n: nat, v: int)
    requires n <= |ms|
    ensures IsPrefix(WithScore(ms[..n], v), WithScore(ms, v))
  {
    assert ms == ms[..n] + ms[n..];
    WithScoreAppend(ms[..n], ms[n..], v);
  }

  /** A prefix of a non-increasing sequence keeps its highest scores: whatever is cut off
      scores at most what is kept. */
  lemma PrefixKeepsTop(sorted: seq<Match>, k: nat)
    requires NonIncreasing(sorted) && k <= |sorted|
    ensures forall c, m :: c in sorted && c !in sorted[..k] && m in sorted[..k] ==> c.score <= m.score
  {
    forall c, m | c in sorted && c !in sorted[..k] && m in sorted[..k] ensures c.score <= m.score {
      var j :| 0 <= j < |sorted| && sorted[j] == c;
      var i :| 0 <= i < k && sorted[..k][i] == m;
      assert j >= k;
    }
  }

  /** What keeping the first `maxResults` of the sorted candidates yields: at most
      `maxResults` eligible, correctly scored catalog schemes, highest score first, and for
      every score a prefix of the candidates with that score in catalog order. */
  lemma {:induction false} RankedMatches(p: Profile, catalog: seq<Scheme>, maxResults: int)
    ensures var result := PyPrefix(SortByScoreDesc(Candidates(p, catalog)), maxResults);
      && (maxResults >= 0 ==> |result| == Min(maxResults, |Candidates(p, catalog)|))
      && NonIncreasing(result)
      && (forall m :: m in result ==>
            m.scheme in catalog && PassesFilter(p, m.scheme.eligibility)
            && m.score == RelevanceScore(p, m.scheme))
      && (forall v :: IsPrefix(WithScore(result, v), WithScore(Candidates(p, catalog), v)))
      && (forall c, m :: c in Candidates(p, catalog) && c !in result && m in result ==> c.score <= m.score)
  {
    var candidates := Candidates(p, catalog);
    var sorted := SortByScoreDesc(candidates);
    var result := PyPrefix(sorted, maxResults);
    SortByScoreDescCorrect(candidates, 0);
    assert |sorted| == |candidates| by {
      assert |multiset(sorted)| == |multiset(candidates)|;
    }
    forall m | m in result
      ensures m.scheme in catalog && PassesFilter(p, m.scheme.eligibility)
      ensures m.score == RelevanceScore(p, m.scheme)
    {
      assert m in sorted;
      assert m in multiset(sorted);
      CandidatesMembership(p, catalog, m);
    }
    forall v ensures IsPrefix(WithScore(result, v), WithScore(candidates, v)) {
      SortByScoreDescCorrect(candidates, v);
      WithScoreOfPrefix(sorted, |result|, v);
    }
    RankedAreTop(p, catalog, maxResults);
  }

  /** The matches kept are the best-scoring candidates: none left out scores higher. */
  lemma RankedAreTop(p: Profile, catalog: seq<Scheme>, maxResults: int)
    ensures var result := PyPrefix(SortByScoreDesc(Candidates(p, catalog)), maxResults);
      forall c, m :: c in Candidates(p, catalog) && c !in result && m in result ==> c.score <= m.score
  {
    var candidates := Candidates(p, catalog);
    var sorted := SortByScoreDesc(candidates);
    var result := PyPrefix(sorted, maxResults);
    SortByScoreDescCorrect(candidates, 0);
    PrefixKeepsTop(sorted, |result|);
    forall c | c in candidates ensures c in sorted {
      assert c in multiset(sorted);
    }
  }

  /** `match_schemes`: filter the catalog, score the candidates, sort them by score
      (highest first, ties in catalog order) and keep the first `maxResults`. */
  method MatchSchemes(p: Profile, catalog: seq<Scheme>, maxResults: int) returns (result: seq<Match>)
    ensures result == PyPrefix(SortByScoreDesc(Candidates(p, catalog)), maxResults)
    ensures maxResults >= 0 ==> |result| == Min(maxResults, |Candidates(p, catalog)|)
    ensures NonIncreasing(result)
    ensures forall m :: m in result ==>
              m.scheme in catalog && PassesFilter(p, m.scheme.eligibility)
              && m.score == RelevanceScore(p, m.scheme)
    ensures forall v :: IsPrefix(WithScore(result, v), WithScore(Candidates(p, catalog), v))
  {
    var matches: seq<Match> := [];
    for i := 0 to |catalog|
      invariant matches == Candidates(p, catalog[..i])
    {
      var scheme := catalog[i];
      var rules := scheme.eligibility;
      if rules.IsEmpty() || PassesFilter(p, rules) {
        var score := RelevanceScore(p, scheme);
        matches := matches + [Match(scheme, score)];
      }
      assert catalog[..i + 1][..i] == catalog[..i];
    }
    assert catalog[..|catalog|] == catalog;
    matches := SortByScoreDesc(matches);
    result := PyPrefix(matches, maxResults);
    RankedMatches(p, catalog, maxResults);
  }

  // ---------------------------------------------------------------------------
  // Progressive profiling

  /** The questions `get_profiling_question` can name. */
  datatype Question =
    | AskAge | AskGender | AskState | AskOccupation | AskCategory | AskIncome
    | AskMaritalStatus | AskBpl

  /** The identifier the source returns for each question. */
  function QuestionKey(q: Question): string {
    match q
    case AskAge => "age"
    case AskGender => "gender"
    case AskState => "state"
    case AskOccupation => "occupation"
    case AskCategory => "category"
    case AskIncome => "income"
    case AskMaritalStatus => "marital_status"
    case AskBpl => "bpl"
  }

  /** The attributes in the order the profiler asks about them. */
  const ProfilingOrder: seq<Field> :=
    [Age, Gender, State, Occupation, Category, AnnualIncome, MaritalStatus, BplStatus]

  /** The question's place in the asking order. */
  function Rank(q: Question): (i: nat)
    ensures i < |ProfilingOrder|
  {
    match q
    case AskAge => 0
    case AskGender => 1
    case AskState => 2
    case AskOccupation => 3
    case AskCategory => 4
    case AskIncome => 5
    case AskMaritalStatus => 6
    case AskBpl => 7
  }

  /** `get_profiling_question`: no question once five of the six critical attributes are
      known; otherwise the first unknown critical attribute in the fixed order. The
      marital-status and BPL questions can never be asked: below five known critical
      attributes, one of the first six checks always fires. */
  function ProfilingQuestion(p: Profile): (r: Option<Question>)
    ensures r.None? <==> KnownCount(p, CriticalFields) >= 5
    ensures r.Some? ==> r.value != AskMaritalStatus && r.value != AskBpl
    ensures r.Some? ==> Get(p, ProfilingOrder[Rank(r.value)]).None?
    ensures r.Some? ==> forall j :: 0 <= j < Rank(r.value) ==> Get(p, ProfilingOrder[j]).Some?
  {
    CompletenessThresholds(p);
    KnownCountCritical(p);
    if CompletenessScore(p) >= 0.8 then None
    else if p.age.None? then Some(AskAge)
    else if p.gender.None? then Some(AskGender)
    else if p.state.None? then Some(AskState)
    else if p.occupation.None? then Some(AskOccupation)
    else if p.category.None? then Some(AskCategory)
    else if p.annualIncome.None? then Some(AskIncome)
    else if p.maritalStatus.None? then Some(AskMaritalStatus)
    else if p.bplStatus.None? then Some(AskBpl)
    else None
  }
}
