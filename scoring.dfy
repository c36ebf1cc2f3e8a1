/** The health scorer: a score that starts at 100 and loses a fixed penalty
    for each nutrient above its limit, a reason per penalty, and a three-band
    label. The rule table (`Rule`, `RuleOrder`) and `Assess` are the
    specification; `HealthScore` computes it step by step as the service does. */
module Scoring {
  import opened Seqs
  import opened Nutrients

  /** The four scoring rules, one per limited nutrient. */
  datatype Rule = CaloriesRule | SugarRule | SaturatedFatRule | SodiumRule

  /** The order in which the rules are evaluated and their reasons reported. */
  const RuleOrder: seq<Rule> := [CaloriesRule, SugarRule, SaturatedFatRule, SodiumRule]

  function Amount(r: Rule, nf: NutrientFacts): real
  {
    match r
    case CaloriesRule => nf.calories
    case SugarRule => nf.sugars
    case SaturatedFatRule => nf.saturatedFat
    case SodiumRule => nf.sodium
  }

  function Limit(r: Rule): real
  {
    match r
    case CaloriesRule => 700.0
    case SugarRule => 30.0
    case SaturatedFatRule => 10.0
    case SodiumRule => 1000.0
  }

  function Penalty(r: Rule): nat
  {
    match r
    case CaloriesRule => 40
    case SugarRule => 30
    case SaturatedFatRule => 20
    case SodiumRule => 15
  }

  function Reason(r: Rule): string
  {
    match r
    case CaloriesRule => "High calories"
    case SugarRule => "High sugar"
    case SaturatedFatRule => "High saturated fat"
    case SodiumRule => "High sodium"
  }

  /** A rule fires when its nutrient is strictly above its limit. */
  predicate Fires(r: Rule, nf: NutrientFacts)
  {
    Amount(r, nf) > Limit(r)
  }

  /** `Fires` as a test on rules, for a fixed `nf`. */
  function FiresOn(nf: NutrientFacts): Rule -> bool
  {
    r => Fires(r, nf)
  }

  /** The rules that fire for `nf`, in evaluation order. */
  function FiredRules(nf: NutrientFacts): seq<Rule>
  {
    Filter(RuleOrder, FiresOn(nf))
  }

  function TotalPenalty(rules: seq<Rule>): nat
  {
    if rules == [] then 0 else Penalty(rules[0]) + TotalPenalty(rules[1..])
  }

  /** Every reason string, in evaluation order. */
  const AllReasons: seq<string> := Map(RuleOrder, Reason)

  /** The result returned to the caller: `{"score", "label", "reasons"}`. */
  datatype Assessment = Assessment(score: int, grade: string, reasons: seq<string>)

  /** The label bands: 85 and above, 60 up to 85, below 60. */
  function Label(score: int): (l: string)
    ensures l == "Healthy" <==> score >= 85
    ensures l == "Moderate" <==> 60 <= score < 85
    ensures l == "Unhealthy" <==> score < 60
  {
    if score >= 85 then "Healthy" else if score >= 60 then "Moderate" else "Unhealthy"
  }

  /** How good a label is: 2 for Healthy, 1 for Moderate, 0 for Unhealthy. */
  function LabelRank(l: string): nat
  {
    if l == "Healthy" then 2 else if l == "Moderate" then 1 else 0
  }

  /** A higher score never gets a worse label. */
  lemma LabelMonotone(s1: int, s2: int)
    requires s1 <= s2
    ensures LabelRank(Label(s1)) <= LabelRank(Label(s2))
  {
  }

  /** The specification of the scorer: 100 less the penalties of the fired
      rules, the label of that score and the reasons of the fired rules. */
  function Assess(nf: NutrientFacts): Assessment
  {
    var fired := FiredRules(nf);
    var score := 100 - TotalPenalty(fired);
    Assessment(score, Label(score), Map(fired, Reason))
  }

  /** `[r]` when `r` fires, `[]` otherwise. */
  function IfFires(r: Rule, nf: NutrientFacts): seq<Rule>
  {
    if Fires(r, nf) then [r] else []
  }

  /** The fired rules are the rules taken one by one in evaluation order. */
  lemma FiredRulesStepwise(nf: NutrientFacts)
    ensures FiredRules(nf)
      == IfFires(CaloriesRule, nf) + IfFires(SugarRule, nf) + IfFires(SaturatedFatRule, nf) + IfFires(SodiumRule, nf)
  {
    var p := FiresOn(nf);
    assert RuleOrder == [CaloriesRule] + [SugarRule] + [SaturatedFatRule] + [SodiumRule];
    FilterSingleton(CaloriesRule, p);
    FilterSingleton(SugarRule, p);
    FilterSingleton(SaturatedFatRule, p);
    FilterSingleton(SodiumRule, p);
    FilterAppend([CaloriesRule] + [SugarRule] + [SaturatedFatRule], [SodiumRule], p);
    FilterAppend([CaloriesRule] + [SugarRule], [SaturatedFatRule], p);
    FilterAppend([CaloriesRule], [SugarRule], p);
  }

  lemma PenaltyIfFires(r: Rule, nf: NutrientFacts)
    ensures TotalPenalty(IfFires(r, nf)) == if Fires(r, nf) then Penalty(r) else 0
  {
  }

  /** The total penalty is 40 when calories exceed 700, plus 30 when sugars exceed 30,
      plus 20 when saturated fat exceeds 10, plus 15 when sodium exceeds 1000. */
  lemma PenaltyFormula(nf: NutrientFacts)
    ensures TotalPenalty(FiredRules(nf))
      == (if nf.calories > 700.0 then 40 else 0)
       + (if nf.sugars > 30.0 then 30 else 0)
       + (if nf.saturatedFat > 10.0 then 20 else 0)
       + (if nf.sodium > 1000.0 then 15 else 0)
  {
    FiredRulesStepwise(nf);
    TotalPenaltyOfFour(IfFires(CaloriesRule, nf), IfFires(SugarRule, nf), IfFires(SaturatedFatRule, nf), IfFires(SodiumRule, nf));
    PenaltyIfFires(CaloriesRule, nf);
    PenaltyIfFires(SugarRule, nf);
    PenaltyIfFires(SaturatedFatRule, nf);
    PenaltyIfFires(SodiumRule, nf);
  }

  /** The score is 100 less 40 when calories exceed 700, 30 when sugars exceed 30,
      20 when saturated fat exceeds 10 and 15 when sodium exceeds 1000. */
  lemma ScoreFormula(nf: NutrientFacts)
    ensures Assess(nf).score == 100
      - (if nf.calories > 700.0 then 40 else 0)
      - (if nf.sugars > 30.0 then 30 else 0)
      - (if nf.saturatedFat > 10.0 then 20 else 0)
      - (if nf.sodium > 1000.0 then 15 else 0)
  {
    PenaltyFormula(nf);
  }

  lemma ReasonIfFires(r: Rule, nf: NutrientFacts)
    ensures Map(IfFires(r, nf), Reason) == if Fires(r, nf) then [Reason(r)] else []
  {
  }

  /** The reasons are "High calories" when calories exceed 700, then "High sugar" when
      sugars exceed 30, then "High saturated fat" when saturated fat exceeds 10, then
      "High sodium" when sodium exceeds 1000. */
  lemma ReasonsFormula(nf: NutrientFacts)
    ensures Assess(nf).reasons
      == (if nf.calories > 700.0 then ["High calories"] else [])
       + (if nf.sugars > 30.0 then ["High sugar"] else [])
       + (if nf.saturatedFat > 10.0 then ["High saturated fat"] else [])
       + (if nf.sodium > 1000.0 then ["High sodium"] else [])
  {
    FiredRulesStepwise(nf);
    var a, b, c, d := IfFires(CaloriesRule, nf), IfFires(SugarRule, nf), IfFires(SaturatedFatRule, nf), IfFires(SodiumRule, nf);
    MapAppend(a + b + c, d, Reason);
    MapAppend(a + b, c, Reason);
    MapAppend(a, b, Reason);
    ReasonIfFires(CaloriesRule, nf);
    ReasonIfFires(SugarRule, nf);
    ReasonIfFires(SaturatedFatRule, nf);
    ReasonIfFires(SodiumRule, nf);
  }

  lemma TotalPenaltyOfFour(a: seq<Rule>, b: seq<Rule>, c: seq<Rule>, d: seq<Rule>)
    ensures TotalPenalty(a + b + c + d) == TotalPenalty(a) + TotalPenalty(b) + TotalPenalty(c) + TotalPenalty(d)
  {
    TotalPenaltyAppend(a + b + c, d);
    TotalPenaltyAppend(a + b, c);
    TotalPenaltyAppend(a, b);
  }

  lemma {:induction false} TotalPenaltyAppend(xs: seq<Rule>, ys: seq<Rule>)
    ensures TotalPenalty(xs + ys) == TotalPenalty(xs) + TotalPenalty(ys)
  {
    if xs != [] {
      assert (xs + ys)[0] == xs[0];
      assert (xs + ys)[1..] == xs[1..] + ys;
      TotalPenaltyAppend(xs[1..], ys);
    } else {
      assert xs + ys == ys;
    }
  }

  /** No clamping: the score ranges from 100 (nothing fires) down to -5 (everything fires). */
  lemma ScoreRange(nf: NutrientFacts)
    ensures -5 <= Assess(nf).score <= 100
    ensures Assess(nf).score == -5 <==> forall r :: Fires(r, nf)
  {
    ScoreFormula(nf);
    if Assess(nf).score == -5 {
      forall r ensures Fires(r, nf) {
        match r
        case CaloriesRule =>
        case SugarRule =>
        case SaturatedFatRule =>
        case SodiumRule =>
      }
    } else {
      assert !Fires(CaloriesRule, nf) || !Fires(SugarRule, nf) || !Fires(SaturatedFatRule, nf) || !Fires(SodiumRule, nf);
    }
  }

  /** The reason of a rule is reported exactly when that rule fires. */
  lemma ReasonIffFires(nf: NutrientFacts, r: Rule)
    ensures Reason(r) in Assess(nf).reasons <==> Fires(r, nf)
  {
    MapMember(FiredRules(nf), Reason, r);
    FilterMember(RuleOrder, FiresOn(nf), r);
    assert r in RuleOrder;
  }

  /** The reasons are reported in evaluation order: calories, sugar, saturated fat, sodium. */
  lemma ReasonsInRuleOrder(nf: NutrientFacts)
    ensures IsSubsequence(Assess(nf).reasons, AllReasons)
  {
    FilterIsSubsequence(RuleOrder, FiresOn(nf));
    MapKeepsSubsequence(FiredRules(nf), RuleOrder, Reason);
  }

  /** One reason per deduction, and none exactly when the score is 100. */
  lemma ReasonsMatchDeductions(nf: NutrientFacts)
    ensures |Assess(nf).reasons| == |FiredRules(nf)|
    ensures Assess(nf).score == 100 - TotalPenalty(FiredRules(nf))
    ensures Assess(nf).reasons == [] <==> Assess(nf).score == 100
    ensures Assess(nf).score == 100 <==> forall r :: !Fires(r, nf)
  {
  }

  /** "Healthy" tolerates only the sodium penalty (100 - 15 = 85): it is given
      exactly when calories, sugars and saturated fat are all within their limits. */
  lemma HealthyIff(nf: NutrientFacts)
    ensures Assess(nf).grade == "Healthy"
      <==> !Fires(CaloriesRule, nf) && !Fires(SugarRule, nf) && !Fires(SaturatedFatRule, nf)
  {
    ScoreFormula(nf);
  }

  /** Protein plays no part in the assessment. */
  lemma ProteinIgnored(nf: NutrientFacts, protein: real)
    ensures Assess(nf.(protein := protein)) == Assess(nf)
  {
    FiredRulesStepwise(nf);
    FiredRulesStepwise(nf.(protein := protein));
  }

  /** The scorer as the service runs it: a running score and a growing list
      of reasons, one `if` per rule. It computes exactly `Assess`. */
  method HealthScore(nf: NutrientFacts) returns (a: Assessment)
    ensures a == Assess(nf)
  {
    ghost var c1 := if nf.calories > 700.0 then ["High calories"] else [];
    ghost var c2 := if nf.sugars > 30.0 then ["High sugar"] else [];
    ghost var c3 := if nf.saturatedFat > 10.0 then ["High saturated fat"] else [];
    ghost var c4 := if nf.sodium > 1000.0 then ["High sodium"] else [];
    var score := 100;
    var reasons: seq<string> := [];
    if nf.calories > 700.0 {
      score := score - 40;
      reasons := reasons + ["High calories"];
    }
    assert reasons == c1;
    if nf.sugars > 30.0 {
      score := score - 30;
      reasons := reasons + ["High sugar"];
    }
    assert reasons == c1 + c2;
    if nf.saturatedFat > 10.0 {
      score := score - 20;
      reasons := reasons + ["High saturated fat"];
    }
    assert reasons == c1 + c2 + c3;
    if nf.sodium > 1000.0 {
      score := score - 15;
      reasons := reasons + ["High sodium"];
    }
    assert reasons == c1 + c2 + c3 + c4;
    a := Assessment(score, Label(score), reasons);
    ScoreFormula(nf);
    ReasonsFormula(nf);
  }

  /** Everything fires: 100 - 40 - 30 - 20 - 15 = -5, "Unhealthy", all four reasons. */
  lemma AllRulesFireExample()
    ensures Assess(NutrientFacts(800.0, 40.0, 12.0, 1200.0, 5.0))
      == Assessment(-5, "Unhealthy", ["High calories", "High sugar", "High saturated fat", "High sodium"])
  {
  }

  /** The limits are strict: values exactly at every limit deduct nothing. */
  lemma AtLimitsExample()
    ensures Assess(NutrientFacts(700.0, 30.0, 10.0, 1000.0, 0.0)) == Assessment(100, "Healthy", [])
  {
  }
}
