/** Citizen profiles and conversation sessions (the records of app/models/schemas.py). */
module Schemas {
  import opened Wrappers
  import opened Slices

  /** A profile attribute value as the dictionary form of a profile carries it. */
  datatype Value = IntV(i: int) | StrV(s: string) | BoolV(b: bool)

  /** The attributes of a citizen profile, in declaration order. The set is closed:
      it replaces the source's look-up of attributes by name. */
  datatype Field =
    | Age | Gender | State | District | Occupation | Category | AnnualIncome
    | BplStatus | Disability | MaritalStatus | LandOwnership | EducationLevel
    | FamilyMembers | ChildrenCount | ChildrenInSchool | PregnantInFamily | SeniorInFamily

  const AllFields: set<Field> :=
    {Age, Gender, State, District, Occupation, Category, AnnualIncome,
     BplStatus, Disability, MaritalStatus, LandOwnership, EducationLevel,
     FamilyMembers, ChildrenCount, ChildrenInSchool, PregnantInFamily, SeniorInFamily}

  /** The attribute's name, as it appears as a dictionary key. */
  function FieldName(f: Field): string {
    match f
    case Age => "age"
    case Gender => "gender"
    case State => "state"
    case District => "district"
    case Occupation => "occupation"
    case Category => "category"
    case AnnualIncome => "annual_income"
    case BplStatus => "bpl_status"
    case Disability => "disability"
    case MaritalStatus => "marital_status"
    case LandOwnership => "land_ownership"
    case EducationLevel => "education_level"
    case FamilyMembers => "family_members"
    case ChildrenCount => "children_count"
    case ChildrenInSchool => "children_in_school"
    case PregnantInFamily => "pregnant_in_family"
    case SeniorInFamily => "senior_in_family"
  }

  /** The profile attribute called `name`, if there is one. */
  function FieldNamed(name: string): (r: Option<Field>)
    ensures forall f: Field :: r == Some(f) <==> FieldName(f) == name
    ensures r.None? <==> forall f: Field :: FieldName(f) != name
  {
    if name == "age" then Some(Age)
    else if name == "gender" then Some(Gender)
    else if name == "state" then Some(State)
    else if name == "district" then Some(District)
    else if name == "occupation" then Some(Occupation)
    else if name == "category" then Some(Category)
    else if name == "annual_income" then Some(AnnualIncome)
    else if name == "bpl_status" then Some(BplStatus)
    else if name == "disability" then Some(Disability)
    else if name == "marital_status" then Some(MaritalStatus)
    else if name == "land_ownership" then Some(LandOwnership)
    else if name == "education_level" then Some(EducationLevel)
    else if name == "family_members" then Some(FamilyMembers)
    else if name == "children_count" then Some(ChildrenCount)
    else if name == "children_in_school" then Some(ChildrenInSchool)
    else if name == "pregnant_in_family" then Some(PregnantInFamily)
    else if name == "senior_in_family" then Some(SeniorInFamily)
    else None
  }

  /** `v` has the type the attribute is declared with. */
  predicate Fits(f: Field, v: Value) {
    match f
    case Age | AnnualIncome | FamilyMembers | ChildrenCount => v.IntV?
    case Gender | State | District | Occupation | Category | MaritalStatus | EducationLevel => v.StrV?
    case BplStatus | Disability | LandOwnership | ChildrenInSchool | PregnantInFamily | SeniorInFamily => v.BoolV?
  }

  /** A citizen profile: every attribute is independently unknown (`None`). */
  datatype Profile = Profile(
    age: Option<int>,
    gender: Option<string>,
    state: Option<string>,
    district: Option<string>,
    occupation: Option<string>,
    category: Option<string>,
    annualIncome: Option<int>,
    bplStatus: Option<bool>,
    disability: Option<bool>,
    maritalStatus: Option<string>,
    landOwnership: Option<bool>,
    educationLevel: Option<string>,
    familyMembers: Option<int>,
    childrenCount: Option<int>,
    childrenInSchool: Option<bool>,
    pregnantInFamily: Option<bool>,
    seniorInFamily: Option<bool>)

  /** The profile a fresh session starts with: nothing known. */
  const EmptyProfile: Profile :=
    Profile(None, None, None, None, None, None, None, None, None,
            None, None, None, None, None, None, None, None)

  function IntValue(o: Option<int>): Option<Value> {
    if o.Some? then Some(IntV(o.value)) else None
  }

  function StrValue(o: Option<string>): Option<Value> {
    if o.Some? then Some(StrV(o.value)) else None
  }

  function BoolValue(o: Option<bool>): Option<Value> {
    if o.Some? then Some(BoolV(o.value)) else None
  }

  /** `getattr(profile, f)`. */
  function Get(p: Profile, f: Field): (r: Option<Value>)
    ensures r.Some? ==> Fits(f, r.value)
  {
    match f
    case Age => IntValue(p.age)
    case Gender => StrValue(p.gender)
    case State => StrValue(p.state)
    case District => StrValue(p.district)
    case Occupation => StrValue(p.occupation)
    case Category => StrValue(p.category)
    case AnnualIncome => IntValue(p.annualIncome)
    case BplStatus => BoolValue(p.bplStatus)
    case Disability => BoolValue(p.disability)
    case MaritalStatus => StrValue(p.maritalStatus)
    case LandOwnership => BoolValue(p.landOwnership)
    case EducationLevel => StrValue(p.educationLevel)
    case FamilyMembers => IntValue(p.familyMembers)
    case ChildrenCount => IntValue(p.childrenCount)
    case ChildrenInSchool => BoolValue(p.childrenInSchool)
    case PregnantInFamily => BoolValue(p.pregnantInFamily)
    case SeniorInFamily => BoolValue(p.seniorInFamily)
  }

  /** `setattr(profile, f, v)` on a copy of the profile. */
  function With(p: Profile, f: Field, v: Value): Profile
    requires Fits(f, v)
  {
    match f
    case Age => p.(age := Some(v.i))
    case Gender => p.(gender := Some(v.s))
    case State => p.(state := Some(v.s))
    case District => p.(district := Some(v.s))
    case Occupation => p.(occupation := Some(v.s))
    case Category => p.(category := Some(v.s))
    case AnnualIncome => p.(annualIncome := Some(v.i))
    case BplStatus => p.(bplStatus := Some(v.b))
    case Disability => p.(disability := Some(v.b))
    case MaritalStatus => p.(maritalStatus := Some(v.s))
    case LandOwnership => p.(landOwnership := Some(v.b))
    case EducationLevel => p.(educationLevel := Some(v.s))
    case FamilyMembers => p.(familyMembers := Some(v.i))
    case ChildrenCount => p.(childrenCount := Some(v.i))
    case ChildrenInSchool => p.(childrenInSchool := Some(v.b))
    case PregnantInFamily => p.(pregnantInFamily := Some(v.b))
    case SeniorInFamily => p.(seniorInFamily := Some(v.b))
  }

  /** Setting one attribute changes that attribute and no other. */
  lemma {:induction false} GetWith(p: Profile, f: Field, v: Value, g: Field)
    requires Fits(f, v)
    ensures Get(With(p, f, v), g) == if g == f then Some(v) else Get(p, g)
  {
    match f
    case Age =>
    case Gender =>
    case State =>
    case District =>
    case Occupation =>
    case Category =>
    case AnnualIncome =>
    case BplStatus =>
    case Disability =>
    case MaritalStatus =>
    case LandOwnership =>
    case EducationLevel =>
    case FamilyMembers =>
    case ChildrenCount =>
    case ChildrenInSchool =>
    case PregnantInFamily =>
    case SeniorInFamily =>
  }

  /** Two profiles that agree on every attribute are the same profile. */
  lemma {:induction false} ProfileExtensionality(p: Profile, q: Profile)
    requires forall f :: Get(p, f) == Get(q, f)
    ensures p == q
  {
    assert p.age == q.age by { assert Get(p, Age) == Get(q, Age); }
    assert p.gender == q.gender by { assert Get(p, Gender) == Get(q, Gender); }
    assert p.state == q.state by { assert Get(p, State) == Get(q, State); }
    assert p.district == q.district by { assert Get(p, District) == Get(q, District); }
    assert p.occupation == q.occupation by { assert Get(p, Occupation) == Get(q, Occupation); }
    assert p.category == q.category by { assert Get(p, Category) == Get(q, Category); }
    assert p.annualIncome == q.annualIncome by { assert Get(p, AnnualIncome) == Get(q, AnnualIncome); }
    assert p.bplStatus == q.bplStatus by { assert Get(p, BplStatus) == Get(q, BplStatus); }
    assert p.disability == q.disability by { assert Get(p, Disability) == Get(q, Disability); }
    assert p.maritalStatus == q.maritalStatus by { assert Get(p, MaritalStatus) == Get(q, MaritalStatus); }
    assert p.landOwnership == q.landOwnership by { assert Get(p, LandOwnership) == Get(q, LandOwnership); }
    assert p.educationLevel == q.educationLevel by { assert Get(p, EducationLevel) == Get(q, EducationLevel); }
    assert p.familyMembers == q.familyMembers by { assert Get(p, FamilyMembers) == Get(q, FamilyMembers); }
    assert p.childrenCount == q.childrenCount by { assert Get(p, ChildrenCount) == Get(q, ChildrenCount); }
    assert p.childrenInSchool == q.childrenInSchool by { assert Get(p, ChildrenInSchool) == Get(q, ChildrenInSchool); }
    assert p.pregnantInFamily == q.pregnantInFamily by { assert Get(p, PregnantInFamily) == Get(q, PregnantInFamily); }
    assert p.seniorInFamily == q.seniorInFamily by { assert Get(p, SeniorInFamily) == Get(q, SeniorInFamily); }
  }

  // ---------------------------------------------------------------------------
  // Completeness

  /** The attributes whose presence the completeness score measures. */
  const CriticalFields: seq<Field> := [Age, Gender, State, Occupation, Category, AnnualIncome]

  /** How many of `fs` are known in `p`. */
  function KnownCount(p: Profile, fs: seq<Field>): (n: nat)
    ensures n <= |fs|
  {
    if fs == [] then 0
    else Known(Get(p, fs[0])) + KnownCount(p, fs[1..])
  }

  function Known<T>(o: Option<T>): nat { if o.Some? then 1 else 0 }

  /** The count over the critical attributes, spelled out attribute by attribute. */
  lemma KnownCountCritical(p: Profile)
    ensures KnownCount(p, CriticalFields) ==
              Known(p.age) + Known(p.gender) + Known(p.state) + Known(p.occupation)
              + Known(p.category) + Known(p.annualIncome)
  {
    assert KnownCount(p, [AnnualIncome]) == Known(p.annualIncome) by {
      assert [AnnualIncome][1..] == [];
    }
    assert KnownCount(p, [Category, AnnualIncome]) == Known(p.category) + Known(p.annualIncome) by {
      assert [Category, AnnualIncome][1..] == [AnnualIncome];
    }
    assert KnownCount(p, [Occupation, Category, AnnualIncome]) ==
           Known(p.occupation) + KnownCount(p, [Category, AnnualIncome]) by {
      assert [Occupation, Category, AnnualIncome][1..] == [Category, AnnualIncome];
    }
    assert KnownCount(p, [State, Occupation, Category, AnnualIncome]) ==
           Known(p.state) + KnownCount(p, [Occupation, Category, AnnualIncome]) by {
      assert [State, Occupation, Category, AnnualIncome][1..] == [Occupation, Category, AnnualIncome];
    }
    assert KnownCount(p, [Gender, State, Occupation, Category, AnnualIncome]) ==
           Known(p.gender) + KnownCount(p, [State, Occupation, Category, AnnualIncome]) by {
      assert [Gender, State, Occupation, Category, AnnualIncome][1..] ==
             [State, Occupation, Category, AnnualIncome];
    }
    assert CriticalFields[1..] == [Gender, State, Occupation, Category, AnnualIncome];
  }

  /** `completeness_score`: the fraction of the critical attributes that are known. */
  function CompletenessScore(p: Profile): (r: real)
    ensures r == KnownCount(p, CriticalFields) as real / 6.0
    ensures 0.0 <= r <= 1.0
    ensures r == 1.0 <==> p.age.Some? && p.gender.Some? && p.state.Some? && p.occupation.Some?
                          && p.category.Some? && p.annualIncome.Some?
    ensures r == 0.0 <==> p.age.None? && p.gender.None? && p.state.None? && p.occupation.None?
                          && p.category.None? && p.annualIncome.None?
  {
    KnownCountCritical(p);
    KnownCount(p, CriticalFields) as real / |CriticalFields| as real
  }

  /** The two thresholds the source compares the score with, stated over whole attributes:
      0.8 of six means five known, 0.5 of six means three known. */
  lemma CompletenessThresholds(p: Profile)
    ensures CompletenessScore(p) >= 0.8 <==> KnownCount(p, CriticalFields) >= 5
    ensures CompletenessScore(p) < 0.5 <==> KnownCount(p, CriticalFields) < 3
    ensures CompletenessScore(p) == 0.0 <==> KnownCount(p, CriticalFields) == 0
  {
    var n := KnownCount(p, CriticalFields);
    assert CompletenessScore(p) == n as real / 6.0;
  }

  // ---------------------------------------------------------------------------
  // The dictionary form of a profile

  /** A dictionary whose every value has its attribute's type. */
  predicate WellTyped(d: map<Field, Value>) {
    forall f :: f in d ==> Fits(f, d[f])
  }

  /** `to_dict`: the known attributes with their values; unknown ones are dropped. */
  function ProfileToDict(p: Profile): (d: map<Field, Value>)
    ensures forall f :: f in d <==> Get(p, f).Some?
    ensures forall f :: f in d ==> Get(p, f) == Some(d[f])
    ensures WellTyped(d)
  {
    map f | f in AllFields && Get(p, f).Some? :: Get(p, f).value
  }

  /** The value under `f` in `d`, when it is an integer, a string or a Boolean. */
  function IntAt(d: map<Field, Value>, f: Field): Option<int> {
    if f in d && d[f].IntV? then Some(d[f].i) else None
  }

  function StrAt(d: map<Field, Value>, f: Field): Option<string> {
    if f in d && d[f].StrV? then Some(d[f].s) else None
  }

  function BoolAt(d: map<Field, Value>, f: Field): Option<bool> {
    if f in d && d[f].BoolV? then Some(d[f].b) else None
  }

  /** `CitizenProfile(**d)`: the attributes named in `d` take its values, the rest stay unknown. */
  function ProfileFromDict(d: map<Field, Value>): Profile
    requires WellTyped(d)
  {
    Profile(
      IntAt(d, Age),
      StrAt(d, Gender),
      StrAt(d, State),
      StrAt(d, District),
      StrAt(d, Occupation),
      StrAt(d, Category),
      IntAt(d, AnnualIncome),
      BoolAt(d, BplStatus),
      BoolAt(d, Disability),
      StrAt(d, MaritalStatus),
      BoolAt(d, LandOwnership),
      StrAt(d, EducationLevel),
      IntAt(d, FamilyMembers),
      IntAt(d, ChildrenCount),
      BoolAt(d, ChildrenInSchool),
      BoolAt(d, PregnantInFamily),
      BoolAt(d, SeniorInFamily))
  }

  /** A rebuilt profile knows exactly the attributes the dictionary names, with their values. */
  lemma {:induction false} GetProfileFromDict(d: map<Field, Value>, f: Field)
    requires WellTyped(d)
    ensures Get(ProfileFromDict(d), f) == if f in d then Some(d[f]) else None
  {
    match f
    case Age =>
    case Gender =>
    case State =>
    case District =>
    case Occupation =>
    case Category =>
    case AnnualIncome =>
    case BplStatus =>
    case Disability =>
    case MaritalStatus =>
    case LandOwnership =>
    case EducationLevel =>
    case FamilyMembers =>
    case ChildrenCount =>
    case ChildrenInSchool =>
    case PregnantInFamily =>
    case SeniorInFamily =>
  }

  /** Rebuilding a profile from its dictionary gives the same profile. */
  lemma {:induction false} ProfileRoundTrip(p: Profile)
    ensures ProfileFromDict(ProfileToDict(p)) == p
  {
    var q := ProfileFromDict(ProfileToDict(p));
    forall f ensures Get(q, f) == Get(p, f) {
      GetProfileFromDict(ProfileToDict(p), f);
    }
    ProfileExtensionality(q, p);
  }

  /** And the dictionary of a rebuilt profile is the dictionary it was built from. */
  lemma {:induction false} ProfileDictRoundTrip(d: map<Field, Value>)
    requires WellTyped(d)
    ensures ProfileToDict(ProfileFromDict(d)) == d
  {
    var e := ProfileToDict(ProfileFromDict(d));
    forall f ensures f in e <==> f in d {
      GetProfileFromDict(d, f);
    }
    forall f | f in d ensures e[f] == d[f] {
      GetProfileFromDict(d, f);
    }
  }

  // ---------------------------------------------------------------------------
  // Sessions

  /** One entry of the conversation history. */
  datatype Message = Message(role: string, content: string, timestamp: real)

  /** One entry of `matched_schemes`: the projection the orchestrator stores. */
  datatype SchemeSummary = SchemeSummary(name: string, benefit: string, score: int)

  /** How many history entries the dictionary form keeps. */
  const HistoryKept: nat := 20

  /** Python's `int(x)` on a float: truncation toward zero. */
  function Trunc(x: real): (r: int)
    ensures x >= 0.0 ==> r as real <= x < r as real + 1.0
    ensures x < 0.0 ==> r as real - 1.0 < x <= r as real
  {
    if x >= 0.0 then x.Floor else -((-x).Floor)
  }

  lemma TruncOfInteger(k: int)
    ensures Trunc(k as real) == k
  {
  }

  /** The values of a session's fields, as `from_dict` produces them. */
  datatype SessionState = SessionState(
    sessionId: string,
    userId: Option<string>,
    language: string,
    currentPillar: string,
    profile: Profile,
    history: seq<Message>,
    matchedSchemes: seq<SchemeSummary>,
    createdAt: real,
    updatedAt: real)

  /** The dictionary form of a session. Every key is optional: `None` is a missing key
      (for `user_id`, a missing key and a null value read the same). */
  datatype SessionDict = SessionDict(
    sessionId: Option<string>,
    userId: Option<string>,
    language: Option<string>,
    currentPillar: Option<string>,
    profile: Option<map<Field, Value>>,
    history: Option<seq<Message>>,
    matchedSchemes: Option<seq<SchemeSummary>>,
    createdAt: Option<int>,
    updatedAt: Option<int>)

  /** `Session.to_dict`. */
  function Encode(st: SessionState): (d: SessionDict)
    ensures d.sessionId == Some(st.sessionId)
    ensures d.history.Some? && |d.history.value| == Min(HistoryKept, |st.history|)
    ensures d.history.Some? && d.history.value == st.history[|st.history| - |d.history.value|..]
    ensures d.createdAt == Some(Trunc(st.createdAt)) && d.updatedAt == Some(Trunc(st.updatedAt))
    ensures d.profile.Some? && forall f :: f in d.profile.value <==> Get(st.profile, f).Some?
  {
    SessionDict(
      Some(st.sessionId),
      st.userId,
      Some(st.language),
      Some(st.currentPillar),
      Some(ProfileToDict(st.profile)),
      Some(PyTail(st.history, HistoryKept)),
      Some(st.matchedSchemes),
      Some(Trunc(st.createdAt)),
      Some(Trunc(st.updatedAt)))
  }

  /** Why `from_dict` raises. */
  datatype DecodeError = MissingSessionId

  /** A dictionary `from_dict` can read: its profile has well-typed values. */
  predicate Decodable(d: SessionDict) {
    d.profile.Some? ==> WellTyped(d.profile.value)
  }

  /** `Session.from_dict`; `now` is the clock reading used for a missing timestamp. */
  function Decode(d: SessionDict, now: real): (r: Result<SessionState, DecodeError>)
    requires Decodable(d)
    ensures r.Failure? <==> d.sessionId.None?
    ensures r.Success? && d.language.None? ==> r.value.language == "hi"
    ensures r.Success? && d.currentPillar.None? ==> r.value.currentPillar == "greeting"
    ensures r.Success? && d.profile.None? ==> r.value.profile == EmptyProfile
    ensures r.Success? && d.history.None? ==> r.value.history == []
    ensures r.Success? && d.matchedSchemes.None? ==> r.value.matchedSchemes == []
    ensures r.Success? && d.createdAt.None? ==> r.value.createdAt == now
    ensures r.Success? && d.updatedAt.None? ==> r.value.updatedAt == now
  {
    if d.sessionId.None? then Failure(MissingSessionId)
    else
      assert ProfileFromDict(map[]) == EmptyProfile by {
        forall f ensures Get(ProfileFromDict(map[]), f) == Get(EmptyProfile, f) {
          GetProfileFromDict(map[], f);
        }
        ProfileExtensionality(ProfileFromDict(map[]), EmptyProfile);
      }
      Success(SessionState(
        d.sessionId.value,
        d.userId,
        if d.language.Some? then d.language.value else "hi",
        if d.currentPillar.Some? then d.currentPillar.value else "greeting",
        ProfileFromDict(if d.profile.Some? then d.profile.value else map[]),
        if d.history.Some? then d.history.value else [],
        if d.matchedSchemes.Some? then d.matchedSchemes.value else [],
        if d.createdAt.Some? then d.createdAt.value as real else now,
        if d.updatedAt.Some? then d.updatedAt.value as real else now))
  }

  /** What survives a save and reload: the last twenty history entries and whole-second timestamps. */
  function Persisted(st: SessionState): SessionState {
    st.(history := PyTail(st.history, HistoryKept),
        createdAt := Trunc(st.createdAt) as real,
        updatedAt := Trunc(st.updatedAt) as real)
  }

  /** Reloading a saved session keeps its identity, language, pillar, profile and matches. */
  lemma {:induction false} SessionRoundTrip(st: SessionState, now: real)
    ensures Decodable(Encode(st))
    ensures Decode(Encode(st), now) == Success(Persisted(st))
  {
    ProfileRoundTrip(st.profile);
  }

  /** A second save and reload changes nothing more. */
  lemma {:induction false} PersistedIsStable(st: SessionState)
    ensures Persisted(Persisted(st)) == Persisted(st)
    ensures Encode(Persisted(st)) == Encode(st)
  {
    PyTailTwice(st.history, HistoryKept);
    TruncOfInteger(Trunc(st.createdAt));
    TruncOfInteger(Trunc(st.updatedAt));
  }

  /** A conversation session, updated in place turn by turn. */
  class Session {
    var sessionId: string
    var userId: Option<string>
    var language: string
    var currentPillar: string
    var profile: Profile
    var conversationHistory: seq<Message>
    var matchedSchemes: seq<SchemeSummary>
    var createdAt: real
    var updatedAt: real

    /** A new session: Hindi, greeting pillar, nothing known; `id` and `now` stand for
        the generated identifier and the clock. */
    constructor (id: string, now: real)
      ensures sessionId == id && userId == None && language == "hi" && currentPillar == "greeting"
      ensures profile == EmptyProfile && conversationHistory == [] && matchedSchemes == []
      ensures createdAt == now && updatedAt == now
    {
      sessionId := id;
      userId := None;
      language := "hi";
      currentPillar := "greeting";
      profile := EmptyProfile;
      conversationHistory := [];
      matchedSchemes := [];
      createdAt := now;
      updatedAt := now;
    }

    /** The session `from_dict` builds from a decoded state. */
    constructor Restore(st: SessionState)
      ensures State() == st
    {
      sessionId := st.sessionId;
      userId := st.userId;
      language := st.language;
      currentPillar := st.currentPillar;
      profile := st.profile;
      conversationHistory := st.history;
      matchedSchemes := st.matchedSchemes;
      createdAt := st.createdAt;
      updatedAt := st.updatedAt;
    }

    function State(): SessionState
      reads this
    {
      SessionState(sessionId, userId, language, currentPillar, profile,
                   conversationHistory, matchedSchemes, createdAt, updatedAt)
    }

    /** `add_message`: one entry appended at the end, stamped `now`; `updated_at` becomes `now`. */
    method AddMessage(role: string, content: string, now: real)
      modifies this
      ensures conversationHistory == old(conversationHistory) + [Message(role, content, now)]
      ensures updatedAt == now
      ensures sessionId == old(sessionId) && userId == old(userId) && language == old(language)
      ensures currentPillar == old(currentPillar) && profile == old(profile)
      ensures matchedSchemes == old(matchedSchemes) && createdAt == old(createdAt)
    {
      conversationHistory := conversationHistory + [Message(role, content, now)];
      updatedAt := now;
    }

    /** `get_recent_history(n)`: the history slice `[-n:]`. */
    function GetRecentHistory(n: int): (r: seq<Message>)
      reads this
      ensures n >= 1 ==> |r| == Min(n, |conversationHistory|)
      ensures |r| <= |conversationHistory|
      ensures r == conversationHistory[|conversationHistory| - |r|..]
      ensures n == 0 ==> r == conversationHistory
      ensures n < 0 ==> r == conversationHistory[Min(-n, |conversationHistory|)..]
    {
      PyTail(conversationHistory, n)
    }
  }
}
