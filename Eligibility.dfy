/** The eligibility quiz endpoint (main/views.py eligibility_submit): an
    additive score over six answers, a tier with its package and colour,
    the strengths and weaknesses the answers trigger, and the stored
    assessment. The parsed JSON body is a map from field to answer; a body
    that does not parse as a JSON object is None. */
module Eligibility {
  import opened Base

  type Answers = map<string, string>

  /** data.get(key). */
  function Get(d: Answers, key: string): (r: Option<string>)
    ensures key in d <==> r.Some?
    ensures key in d ==> r.value == d[key]
  {
    if key in d then Some(d[key]) else None
  }

  /** A test on one answer: the answer is one of the values, or it is not
      (a missing answer is none of them). */
  datatype Cond = OneOf(key: string, values: seq<string>) | NoneOf(key: string, values: seq<string>)

  predicate Holds(c: Cond, d: Answers) {
    match c
    case OneOf(k, vs) => Get(d, k).Some? && Get(d, k).value in vs
    case NoneOf(k, vs) => Get(d, k).None? || Get(d, k).value !in vs
  }

  const FundsReady: string := "Yes (€5,000+)"

  const GoodGerman: seq<string> := ["B2", "C1"]
  const SomeExperience: seq<string> := ["1-3 years", "3-5 years", "5+ years"]
  const LongExperience: seq<string> := ["3-5 years", "5+ years"]
  const SoonTimeline: seq<string> := ["Within 6 months", "6-12 months"]

  // ---------------------------------------------------------------------
  // The score
  // ---------------------------------------------------------------------

  datatype ScoreRule = ScoreRule(cond: Cond, weight: nat)

  const ScoreRules: seq<ScoreRule> := [
    ScoreRule(OneOf("q2_internship", ["Yes"]), 20),
    ScoreRule(OneOf("q3_mdcn_license", ["Yes"]), 15),
    ScoreRule(OneOf("q4_german_level", GoodGerman), 25),
    ScoreRule(OneOf("q6_experience_years", SomeExperience), 15),
    ScoreRule(OneOf("q8_funds", [FundsReady]), 15),
    ScoreRule(OneOf("q9_timeline", SoonTimeline), 10)
  ]

  /** The sum of the weights of the first n rules that hold. */
  function ScoreUpTo(rules: seq<ScoreRule>, d: Answers, n: nat): nat
    requires n <= |rules|
  {
    if n == 0 then 0
    else ScoreUpTo(rules, d, n - 1) + (if Holds(rules[n - 1].cond, d) then rules[n - 1].weight else 0)
  }

  function RuleScore(rules: seq<ScoreRule>, d: Answers): nat {
    ScoreUpTo(rules, d, |rules|)
  }

  /** The sum of the weights of the first n rules. */
  function MaxUpTo(rules: seq<ScoreRule>, n: nat): nat
    requires n <= |rules|
  {
    if n == 0 then 0 else MaxUpTo(rules, n - 1) + rules[n - 1].weight
  }

  lemma {:induction false} ScoreUpToBounded(rules: seq<ScoreRule>, d: Answers, n: nat)
    requires n <= |rules|
    ensures ScoreUpTo(rules, d, n) <= MaxUpTo(rules, n)
  {
    if n > 0 { ScoreUpToBounded(rules, d, n - 1); }
  }

  lemma {:induction false} ScoreUpToFull(rules: seq<ScoreRule>, d: Answers, n: nat)
    requires n <= |rules|
    requires forall j :: 0 <= j < n ==> Holds(rules[j].cond, d)
    ensures ScoreUpTo(rules, d, n) == MaxUpTo(rules, n)
  {
    if n > 0 { ScoreUpToFull(rules, d, n - 1); }
  }

  lemma {:induction false} ScoreUpToEmpty(rules: seq<ScoreRule>, d: Answers, n: nat)
    requires n <= |rules|
    requires forall j :: 0 <= j < n ==> !Holds(rules[j].cond, d)
    ensures ScoreUpTo(rules, d, n) == 0
  {
    if n > 0 { ScoreUpToEmpty(rules, d, n - 1); }
  }

  lemma MaxScoreIsHundred()
    ensures MaxUpTo(ScoreRules, |ScoreRules|) == 100
  {
    var r := ScoreRules;
    assert MaxUpTo(r, 1) == 20;
    assert MaxUpTo(r, 2) == 35;
    assert MaxUpTo(r, 3) == 60;
    assert MaxUpTo(r, 4) == 75;
    assert MaxUpTo(r, 5) == 90;
  }

  /** The key a condition reads. */
  function CondKey(c: Cond): string {
    match c
    case OneOf(k, _) => k
    case NoneOf(k, _) => k
  }

  /** Two answer sets that agree on every key the rules read score the same. */
  lemma {:induction false} ScoreUpToReadsOnlyKeys(rules: seq<ScoreRule>, d1: Answers, d2: Answers, n: nat)
    requires n <= |rules|
    requires forall j :: 0 <= j < n ==> Get(d1, CondKey(rules[j].cond)) == Get(d2, CondKey(rules[j].cond))
    ensures ScoreUpTo(rules, d1, n) == ScoreUpTo(rules, d2, n)
  {
    if n > 0 { ScoreUpToReadsOnlyKeys(rules, d1, d2, n - 1); }
  }

  const ScoredKeys: seq<string> := ["q2_internship", "q3_mdcn_license", "q4_german_level", "q6_experience_years", "q8_funds", "q9_timeline"]

  /** The score lies between 0 and 100. */
  lemma ScoreAtMostHundred(d: Answers)
    ensures RuleScore(ScoreRules, d) <= 100
  {
    ScoreUpToBounded(ScoreRules, d, |ScoreRules|);
    MaxScoreIsHundred();
  }

  /** Only q2, q3, q4, q6, q8 and q9 affect the score. */
  lemma ScoreReadsSixAnswers(d1: Answers, d2: Answers)
    requires forall k :: k in ScoredKeys ==> Get(d1, k) == Get(d2, k)
    ensures RuleScore(ScoreRules, d1) == RuleScore(ScoreRules, d2)
  {
    forall i | 0 <= i < |ScoreRules| ensures Get(d1, CondKey(ScoreRules[i].cond)) == Get(d2, CondKey(ScoreRules[i].cond)) {
      assert CondKey(ScoreRules[i].cond) == ScoredKeys[i];
    }
    ScoreUpToReadsOnlyKeys(ScoreRules, d1, d2, |ScoreRules|);
  }

  /** The best answers score 100, answers that meet no rule score 0. */
  lemma ScoreExtremes(best: Answers, worst: Answers)
    requires forall i :: 0 <= i < |ScoreRules| ==> Holds(ScoreRules[i].cond, best)
    requires forall i :: 0 <= i < |ScoreRules| ==> !Holds(ScoreRules[i].cond, worst)
    ensures RuleScore(ScoreRules, best) == 100 && RuleScore(ScoreRules, worst) == 0
  {
    ScoreUpToFull(ScoreRules, best, |ScoreRules|);
    MaxScoreIsHundred();
    ScoreUpToEmpty(ScoreRules, worst, |ScoreRules|);
  }

  // ---------------------------------------------------------------------
  // Tiers
  // ---------------------------------------------------------------------

  datatype Tier = Tier(category: string, package: string, color: string)

  const HighlyEligible: Tier := Tier("Highly Eligible", "Premium Package", "green")
  const AlmostReady: Tier := Tier("Almost Ready", "Language + Basic Package", "yellow")
  const EarlyStage: Tier := Tier("Early Stage", "Starter Consultation", "orange")
  const NotYetEligible: Tier := Tier("Not Yet Eligible", "Preparation Resources", "red")

  /** The tier a score falls in, by the thresholds 80, 60 and 40. */
  function TierFor(score: nat): Tier {
    if score >= 80 then HighlyEligible
    else if score >= 60 then AlmostReady
    else if score >= 40 then EarlyStage
    else NotYetEligible
  }

  // ---------------------------------------------------------------------
  // Strengths and weaknesses
  // ---------------------------------------------------------------------

  /** A fixed message, or one that quotes the answer between two texts. */
  datatype Message = Plain(text: string) | Quoting(before: string, after: string)

  datatype NoteRule = NoteRule(cond: Cond, message: Message)

  const StrengthRules: seq<NoteRule> := [
    NoteRule(OneOf("q2_internship", ["Yes"]), Plain("You have completed your internship")),
    NoteRule(OneOf("q3_mdcn_license", ["Yes"]), Plain("You hold a full MDCN license")),
    NoteRule(OneOf("q4_german_level", GoodGerman), Quoting("Your German is at a strong level (", ")")),
    NoteRule(OneOf("q6_experience_years", LongExperience), Plain("You have significant medical experience")),
    NoteRule(OneOf("q8_funds", [FundsReady]), Plain("You have funds ready for relocation")),
    NoteRule(OneOf("q9_timeline", SoonTimeline), Plain("Your timeline is realistic and achievable")),
    NoteRule(NoneOf("q7_currently_practicing", ["No"]), Plain("You are currently in active practice"))
  ]

  const WeaknessRules: seq<NoteRule> := [
    NoteRule(NoneOf("q2_internship", ["Yes"]), Plain("You need to complete your internship")),
    NoteRule(NoneOf("q3_mdcn_license", ["Yes"]), Plain("You need to obtain your MDCN license")),
    NoteRule(NoneOf("q4_german_level", GoodGerman), Plain("German language training is required")),
    NoteRule(OneOf("q6_experience_years", ["0-1 year"]), Plain("More clinical experience would strengthen your application")),
    NoteRule(NoneOf("q8_funds", [FundsReady]), Plain("Start planning your relocation budget"))
  ]

  function Render(m: Message, answer: Option<string>): string {
    match m
    case Plain(t) => t
    case Quoting(b, a) => b + (if answer.Some? then answer.value else "None") + a
  }

  /** The message of a rule that holds. */
  function Note(r: NoteRule, d: Answers): seq<string> {
    if Holds(r.cond, d) then [Render(r.message, Get(d, CondKey(r.cond)))] else []
  }

  /** The messages of the first n rules that hold, in rule order. */
  function FiredUpTo(rules: seq<NoteRule>, d: Answers, n: nat): (r: seq<string>)
    requires n <= |rules|
    ensures |r| <= n
  {
    if n == 0 then [] else FiredUpTo(rules, d, n - 1) + Note(rules[n - 1], d)
  }

  function Fired(rules: seq<NoteRule>, d: Answers): seq<string> {
    FiredUpTo(rules, d, |rules|)
  }

  /** Every fired message comes from a rule that holds, and every rule that
      holds contributes its message. */
  lemma {:induction false} FiredCount(rules: seq<NoteRule>, d: Answers, n: nat)
    requires n <= |rules|
    ensures |FiredUpTo(rules, d, n)| == |set j | 0 <= j < n && Holds(rules[j].cond, d)|
  {
    if n > 0 {
      FiredCount(rules, d, n - 1);
      HoldingStep(rules, d, n);
    }
  }

  lemma HoldingStep(rules: seq<NoteRule>, d: Answers, n: nat)
    requires 0 < n <= |rules|
    ensures Holds(rules[n - 1].cond, d) ==>
              (set j | 0 <= j < n && Holds(rules[j].cond, d))
              == (set j | 0 <= j < n - 1 && Holds(rules[j].cond, d)) + {n - 1}
    ensures !Holds(rules[n - 1].cond, d) ==>
              (set j | 0 <= j < n && Holds(rules[j].cond, d))
              == (set j | 0 <= j < n - 1 && Holds(rules[j].cond, d))
  {
  }

  /** An answer to q7 other than exactly 'No', a missing one included, adds
      the active-practice strength last. */
  lemma ActivePracticeStrength(d: Answers)
    requires Get(d, "q7_currently_practicing") != Some("No")
    ensures var f := Fired(StrengthRules, d); |f| > 0 && f[|f| - 1] == "You are currently in active practice"
  {
    assert Holds(StrengthRules[6].cond, d);
  }

  /** '1-3 years' scores the experience points but is neither a strength
      nor a weakness. */
  lemma OneToThreeYears(d: Answers)
    requires Get(d, "q6_experience_years") == Some("1-3 years")
    ensures Holds(ScoreRules[3].cond, d)
    ensures !Holds(StrengthRules[3].cond, d) && !Holds(WeaknessRules[3].cond, d)
    ensures forall i :: 0 <= i < |StrengthRules| && CondKey(StrengthRules[i].cond) == "q6_experience_years" ==> !Holds(StrengthRules[i].cond, d)
    ensures forall i :: 0 <= i < |WeaknessRules| && CondKey(WeaknessRules[i].cond) == "q6_experience_years" ==> !Holds(WeaknessRules[i].cond, d)
  {
    assert "1-3 years" in SomeExperience;
    assert "1-3 years" !in LongExperience;
  }

  // ---------------------------------------------------------------------
  // The evaluation, statement by statement
  // ---------------------------------------------------------------------

  /** The six conditional additions of the view. */
  method ComputeScore(d: Answers) returns (score: nat)
    ensures score == RuleScore(ScoreRules, d) && score <= 100
  {
    var r := ScoreRules;
    score := 0;
    if Get(d, "q2_internship") == Some("Yes") { score := score + 20; }
    assert score == ScoreUpTo(r, d, 1);
    if Get(d, "q3_mdcn_license") == Some("Yes") { score := score + 15; }
    assert score == ScoreUpTo(r, d, 2);
    var germanLevel := Get(d, "q4_german_level");
    if germanLevel.Some? && germanLevel.value in GoodGerman { score := score + 25; }
    assert score == ScoreUpTo(r, d, 3);
    var experience := Get(d, "q6_experience_years");
    if experience.Some? && experience.value in SomeExperience { score := score + 15; }
    assert score == ScoreUpTo(r, d, 4);
    if Get(d, "q8_funds") == Some(FundsReady) { score := score + 15; }
    assert score == ScoreUpTo(r, d, 5);
    var timeline := Get(d, "q9_timeline");
    if timeline.Some? && timeline.value in SoonTimeline { score := score + 10; }
    assert score == ScoreUpTo(r, d, 6);
    ScoreAtMostHundred(d);
  }

  /** The tier thresholds 80, 60 and 40. */
  method ComputeTier(score: nat) returns (tier: Tier)
    ensures tier == HighlyEligible <==> score >= 80
    ensures tier == AlmostReady <==> 60 <= score < 80
    ensures tier == EarlyStage <==> 40 <= score < 60
    ensures tier == NotYetEligible <==> score < 40
  {
    if score >= 80 {
      tier := HighlyEligible;
    } else if score >= 60 {
      tier := AlmostReady;
    } else if score >= 40 {
      tier := EarlyStage;
    } else {
      tier := NotYetEligible;
    }
  }

  /** The seven conditional strengths of the view, in order. */
  method ComputeStrengths(d: Answers) returns (strengths: seq<string>)
    ensures strengths == Fired(StrengthRules, d)
  {
    var s := StrengthRules;
    var experience := Get(d, "q6_experience_years");
    var timeline := Get(d, "q9_timeline");
    strengths := FirstStrengths(d);
    if experience.Some? && experience.value in LongExperience { strengths := strengths + ["You have significant medical experience"]; }
    assert strengths == FiredUpTo(s, d, 4);
    if Get(d, "q8_funds") == Some(FundsReady) { strengths := strengths + ["You have funds ready for relocation"]; }
    assert strengths == FiredUpTo(s, d, 5);
    if timeline.Some? && timeline.value in SoonTimeline { strengths := strengths + ["Your timeline is realistic and achievable"]; }
    assert strengths == FiredUpTo(s, d, 6);
    if Get(d, "q7_currently_practicing") != Some("No") { strengths := strengths + ["You are currently in active practice"]; }
    assert strengths == FiredUpTo(s, d, 7);
  }

  /** The first three strengths: internship, licence, German level. */
  method FirstStrengths(d: Answers) returns (strengths: seq<string>)
    ensures strengths == FiredUpTo(StrengthRules, d, 3)
  {
    var s := StrengthRules;
    var germanLevel := Get(d, "q4_german_level");
    strengths := [];
    if Get(d, "q2_internship") == Some("Yes") { strengths := strengths + ["You have completed your internship"]; }
    assert strengths == FiredUpTo(s, d, 1);
    if Get(d, "q3_mdcn_license") == Some("Yes") { strengths := strengths + ["You hold a full MDCN license"]; }
    assert strengths == FiredUpTo(s, d, 2);
    if germanLevel.Some? && germanLevel.value in GoodGerman {
      strengths := strengths + ["Your German is at a strong level (" + germanLevel.value + ")"];
    }
    assert strengths == FiredUpTo(s, d, 3);
  }

  /** The five conditional weaknesses of the view, in order. */
  method ComputeWeaknesses(d: Answers) returns (weaknesses: seq<string>)
    ensures weaknesses == Fired(WeaknessRules, d)
  {
    var w := WeaknessRules;
    var germanLevel := Get(d, "q4_german_level");
    var experience := Get(d, "q6_experience_years");
    weaknesses := [];
    if Get(d, "q2_internship") != Some("Yes") { weaknesses := weaknesses + ["You need to complete your internship"]; }
    assert weaknesses == FiredUpTo(w, d, 1);
    if Get(d, "q3_mdcn_license") != Some("Yes") { weaknesses := weaknesses + ["You need to obtain your MDCN license"]; }
    assert weaknesses == FiredUpTo(w, d, 2);
    if !(germanLevel.Some? && germanLevel.value in GoodGerman) { weaknesses := weaknesses + ["German language training is required"]; }
    assert weaknesses == FiredUpTo(w, d, 3);
    if experience == Some("0-1 year") { weaknesses := weaknesses + ["More clinical experience would strengthen your application"]; }
    assert weaknesses == FiredUpTo(w, d, 4);
    if Get(d, "q8_funds") != Some(FundsReady) { weaknesses := weaknesses + ["Start planning your relocation budget"]; }
    assert weaknesses == FiredUpTo(w, d, 5);

  }

  datatype Evaluation = Evaluation(score: nat, tier: Tier, strengths: seq<string>, weaknesses: seq<string>)

  /** The score, the tier and the full strength and weakness lists, built
      up as the view does. */
  method Evaluate(d: Answers) returns (e: Evaluation)
    ensures e.score == RuleScore(ScoreRules, d) && e.score <= 100
    ensures e.tier == HighlyEligible <==> e.score >= 80
    ensures e.tier == AlmostReady <==> 60 <= e.score < 80
    ensures e.tier == EarlyStage <==> 40 <= e.score < 60
    ensures e.tier == NotYetEligible <==> e.score < 40
    ensures e.tier == TierFor(e.score)
    ensures e.strengths == Fired(StrengthRules, d)
    ensures e.weaknesses == Fired(WeaknessRules, d)
  {
    var score := ComputeScore(d);
    var tier := ComputeTier(score);
    var strengths := ComputeStrengths(d);
    var weaknesses := ComputeWeaknesses(d);
    e := Evaluation(score, tier, strengths, weaknesses);
  }

  // ---------------------------------------------------------------------
  // The endpoint
  // ---------------------------------------------------------------------

  /** The fourteen answer fields stored with an assessment; none may be null. */
  const StoredFields: seq<string> := [
    "full_name", "email", "phone", "whatsapp",
    "q1_has_degree", "q2_internship", "q3_mdcn_license", "q4_german_level", "q5_fsp_prep",
    "q6_experience_years", "q7_currently_practicing", "q8_funds", "q9_timeline", "q10_dependents"
  ]

  predicate HasStoredFields(d: Answers) {
    forall k :: k in StoredFields ==> k in d
  }

  /** The max_length of each stored field's column, in the order of
      StoredFields: full_name 200, email 254 (EmailField's default), phone
      and whatsapp 20, the ten answers 50. */
  const ColumnWidths: seq<nat> := [200, 254, 20, 20, 50, 50, 50, 50, 50, 50, 50, 50, 50, 50]

  /** Every stored field is present and fits its column; PostgreSQL
      refuses a longer value and the INSERT raises. */
  predicate Storable(d: Answers) {
    && HasStoredFields(d)
    && forall i :: 0 <= i < |StoredFields| ==> |d[StoredFields[i]]| <= ColumnWidths[i]
  }

  datatype Assessment = Assessment(answers: seq<string>, score: nat, category: string)

  datatype SubmitResponse =
    | Scored(score: nat, category: string, package: string, color: string, strengths: seq<string>, weaknesses: seq<string>)
    | Rejected(status: int)

  class AssessmentStore {
    /** The EligibilityAssessment rows. */
    var assessments: seq<Assessment>

    constructor()
      ensures assessments == []
    {
      assessments := [];
    }

    /** eligibility_submit: a body that is not a JSON object, that lacks
        one of the stored fields (a null column), or that holds a value
        longer than its column gives 400 and stores nothing; otherwise the
        assessment is stored and the response carries the first three
        strengths and the first two weaknesses. */
    method Submit(body: Option<Answers>) returns (resp: SubmitResponse)
      modifies this
      ensures body.None? || !HasStoredFields(body.value) ==> resp == Rejected(400) && assessments == old(assessments)
      ensures body.Some? && !Storable(body.value) ==> resp == Rejected(400) && assessments == old(assessments)
      ensures body.Some? && Storable(body.value) ==>
                var d := body.value;
                && resp.Scored?
                && resp.score == RuleScore(ScoreRules, d)
                && resp.category == TierFor(resp.score).category
                && resp.package == TierFor(resp.score).package
                && resp.color == TierFor(resp.score).color
                && resp.strengths == Take(Fired(StrengthRules, d), 3)
                && resp.weaknesses == Take(Fired(WeaknessRules, d), 2)
                && assessments == old(assessments)
                     + [Assessment(seq(|StoredFields|, i requires 0 <= i < |StoredFields| => d[StoredFields[i]]), resp.score, resp.category)]
    {
      if body.None? {
        return Rejected(400);
      }
      var d := body.value;
      var e := Evaluate(d);
      if !Storable(d) {
        return Rejected(400);
      }
      var row := seq(|StoredFields|, i requires 0 <= i < |StoredFields| => d[StoredFields[i]]);
      assessments := assessments + [Assessment(row, e.score, e.tier.category)];
      resp := Scored(e.score, e.tier.category, e.tier.package, e.tier.color, Take(e.strengths, 3), Take(e.weaknesses, 2));
    }
  }

  /** At most three strengths and two weaknesses are returned, each the
      leading part of the fired list. */
  lemma ResponseLists(d: Answers)
    ensures |Take(Fired(StrengthRules, d), 3)| <= 3 && Take(Fired(StrengthRules, d), 3) <= Fired(StrengthRules, d)
    ensures |Take(Fired(WeaknessRules, d), 2)| <= 2 && Take(Fired(WeaknessRules, d), 2) <= Fired(WeaknessRules, d)
  {
  }
}
