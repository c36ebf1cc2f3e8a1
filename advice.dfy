/** The advice generator: up to three warnings, each given when the user's
    profile mentions a condition (or states a goal) and the matching nutrient
    is above its advice limit. The tip table (`Tip`, `TipOrder`) and `Advice`
    are the specification; `PersonalizedAdvice` builds the list step by step
    as the service does. */
module AdviceRules {
  import opened Seqs
  import opened Text
  import opened Nutrients

  /** The caller's health profile; either field may be absent from the request. */
  datatype Profile = Profile(conditions: Option<string>, goal: Option<string>)

  /** The profile used when the request has none (`{}`). */
  const EmptyProfile := Profile(None, None)

  /** The three advice rules. */
  datatype Tip = DiabetesSugar | HypertensionSodium | WeightLossCalories

  /** The order in which the tips are evaluated and reported. */
  const TipOrder: seq<Tip> := [DiabetesSugar, HypertensionSodium, WeightLossCalories]

  function Message(t: Tip): string
  {
    match t
    case DiabetesSugar => "Avoid: High sugar for diabetes"
    case HypertensionSodium => "Avoid: High sodium for hypertension"
    case WeightLossCalories => "Too many calories for weight loss"
  }

  /** Every advice message, in evaluation order. */
  const AllAdvice: seq<string> := Map(TipOrder, Message)

  /** `profile.get(field, '').lower()`. */
  function Lowered(field: Option<string>): string
  {
    Lower(GetOr(field, ""))
  }

  /** The profile side of a tip, on the lower-cased conditions and goal:
      containment for conditions, exact equality for the goal. */
  predicate Signal(t: Tip, conditions: string, goal: string)
  {
    match t
    case DiabetesSugar => Contains(conditions, "diabetes")
    case HypertensionSodium => Contains(conditions, "hypertension")
    case WeightLossCalories => goal == "weight loss"
  }

  /** The nutrient side of a tip: a strict comparison with its advice limit. */
  predicate NutrientHigh(t: Tip, nf: NutrientFacts)
  {
    match t
    case DiabetesSugar => nf.sugars > 15.0
    case HypertensionSodium => nf.sodium > 500.0
    case WeightLossCalories => nf.calories > 400.0
  }

  /** A tip applies when both its profile signal and its nutrient condition hold. */
  predicate Applies(t: Tip, nf: NutrientFacts, profile: Profile)
  {
    Signal(t, Lowered(profile.conditions), Lowered(profile.goal)) && NutrientHigh(t, nf)
  }

  /** `Applies` as a test on tips, for a fixed product and profile. */
  function AppliesTo(nf: NutrientFacts, profile: Profile): Tip -> bool
  {
    t => Applies(t, nf, profile)
  }

  /** The specification of the generator: the messages of the applicable tips, in order. */
  function Advice(nf: NutrientFacts, profile: Profile): seq<string>
  {
    Map(Filter(TipOrder, AppliesTo(nf, profile)), Message)
  }

  /** `[Message(t)]` when `t` applies, `[]` otherwise. */
  function IfApplies(t: Tip, nf: NutrientFacts, profile: Profile): seq<string>
  {
    if Applies(t, nf, profile) then [Message(t)] else []
  }

  /** The advice is the tips taken one by one in evaluation order. */
  lemma AdviceStepwise(nf: NutrientFacts, profile: Profile)
    ensures Advice(nf, profile)
      == IfApplies(DiabetesSugar, nf, profile) + IfApplies(HypertensionSodium, nf, profile)
       + IfApplies(WeightLossCalories, nf, profile)
  {
    var p := AppliesTo(nf, profile);
    assert TipOrder == [DiabetesSugar] + [HypertensionSodium] + [WeightLossCalories];
    FilterSingleton(DiabetesSugar, p);
    FilterSingleton(HypertensionSodium, p);
    FilterSingleton(WeightLossCalories, p);
    FilterAppend([DiabetesSugar] + [HypertensionSodium], [WeightLossCalories], p);
    FilterAppend([DiabetesSugar], [HypertensionSodium], p);
    var a, b, c := Filter([DiabetesSugar], p), Filter([HypertensionSodium], p), Filter([WeightLossCalories], p);
    MapAppend(a + b, c, Message);
    MapAppend(a, b, Message);
  }

  /** Each message is given exactly when its profile signal and its nutrient
      condition both hold, whatever the other tips do. */
  lemma AdviceIff(nf: NutrientFacts, profile: Profile)
    ensures "Avoid: High sugar for diabetes" in Advice(nf, profile)
      <==> Contains(Lowered(profile.conditions), "diabetes") && nf.sugars > 15.0
    ensures "Avoid: High sodium for hypertension" in Advice(nf, profile)
      <==> Contains(Lowered(profile.conditions), "hypertension") && nf.sodium > 500.0
    ensures "Too many calories for weight loss" in Advice(nf, profile)
      <==> Lowered(profile.goal) == "weight loss" && nf.calories > 400.0
  {
    AdviceStepwise(nf, profile);
  }

  /** The messages come in the fixed order diabetes, hypertension, weight loss. */
  lemma AdviceInTipOrder(nf: NutrientFacts, profile: Profile)
    ensures IsSubsequence(Advice(nf, profile), AllAdvice)
  {
    FilterIsSubsequence(TipOrder, AppliesTo(nf, profile));
    MapKeepsSubsequence(Filter(TipOrder, AppliesTo(nf, profile)), TipOrder, Message);
  }

  /** Matching ignores letter case: profiles whose fields differ only in case get the same advice. */
  lemma AdviceIgnoresCase(nf: NutrientFacts, p1: Profile, p2: Profile)
    requires SameIgnoringCase(GetOr(p1.conditions, ""), GetOr(p2.conditions, ""))
    requires SameIgnoringCase(GetOr(p1.goal, ""), GetOr(p2.goal, ""))
    ensures Advice(nf, p1) == Advice(nf, p2)
  {
    LowerIdentifiesCaseVariants(GetOr(p1.conditions, ""), GetOr(p2.conditions, ""));
    LowerIdentifiesCaseVariants(GetOr(p1.goal, ""), GetOr(p2.goal, ""));
    AdviceStepwise(nf, p1);
    AdviceStepwise(nf, p2);
  }

  /** A condition named in any letter case inside the conditions text is recognised. */
  lemma MentionedConditionMatches(nf: NutrientFacts, profile: Profile, mention: string)
    requires profile.conditions.Some? && Contains(profile.conditions.value, mention)
    requires Lower(mention) == "diabetes"
    requires nf.sugars > 15.0
    ensures "Avoid: High sugar for diabetes" in Advice(nf, profile)
  {
    ContainsLower(profile.conditions.value, mention);
    AdviceIff(nf, profile);
  }

  /** Absent fields read as the empty string: no conditions means no condition
      advice, no goal means no weight-loss advice, and no profile means no advice. */
  lemma AbsentFieldsGiveNoAdvice(nf: NutrientFacts, profile: Profile)
    ensures profile.conditions.None? ==>
      "Avoid: High sugar for diabetes" !in Advice(nf, profile)
      && "Avoid: High sodium for hypertension" !in Advice(nf, profile)
    ensures profile.goal.None? ==> "Too many calories for weight loss" !in Advice(nf, profile)
    ensures Advice(nf, EmptyProfile) == []
  {
  }

  /** Protein plays no part in the advice. */
  lemma AdviceIgnoresProtein(nf: NutrientFacts, profile: Profile, protein: real)
    ensures Advice(nf.(protein := protein), profile) == Advice(nf, profile)
  {
    AdviceStepwise(nf, profile);
    AdviceStepwise(nf.(protein := protein), profile);
  }

  /** The generator as the service runs it: lower-case both fields, then one `if`
      per tip appending its message. It computes exactly `Advice`. */
  method PersonalizedAdvice(nf: NutrientFacts, profile: Profile) returns (advice: seq<string>)
    ensures advice == Advice(nf, profile)
  {
    var cond := Lower(GetOr(profile.conditions, ""));
    var goal := Lower(GetOr(profile.goal, ""));
    advice := [];
    if Contains(cond, "diabetes") && nf.sugars > 15.0 {
      advice := advice + ["Avoid: High sugar for diabetes"];
    }
    assert advice == IfApplies(DiabetesSugar, nf, profile);
    if Contains(cond, "hypertension") && nf.sodium > 500.0 {
      advice := advice + ["Avoid: High sodium for hypertension"];
    }
    assert advice == IfApplies(DiabetesSugar, nf, profile) + IfApplies(HypertensionSodium, nf, profile);
    if goal == "weight loss" && nf.calories > 400.0 {
      advice := advice + ["Too many calories for weight loss"];
    }
    AdviceStepwise(nf, profile);
  }

  lemma ExampleProfileLowered()
    ensures Lowered(Some("Diabetes, Hypertension")) == "diabetes, hypertension"
    ensures Lowered(Some("Weight Loss")) == "weight loss"
  {
  }

  lemma ExampleConditionsMatch()
    ensures Contains("diabetes, hypertension", "diabetes")
    ensures Contains("diabetes, hypertension", "hypertension")
  {
    var cond := "diabetes, hypertension";
    assert cond[..8] == "diabetes";
    assert cond[10..22] == "hypertension";
    assert OccursAt(cond, "hypertension", 10);
    ContainsIff(cond, "hypertension");
  }

  /** Conditions "Diabetes, Hypertension", goal "Weight Loss", and sugars 20,
      sodium 600, calories 500: all three messages, in order. */
  lemma AllTipsExample()
    ensures Advice(NutrientFacts(500.0, 20.0, 0.0, 600.0, 0.0),
                   Profile(Some("Diabetes, Hypertension"), Some("Weight Loss")))
      == AllAdvice
  {
    var nf := NutrientFacts(500.0, 20.0, 0.0, 600.0, 0.0);
    var profile := Profile(Some("Diabetes, Hypertension"), Some("Weight Loss"));
    ExampleProfileLowered();
    ExampleConditionsMatch();
    AdviceStepwise(nf, profile);
    assert TipOrder == [DiabetesSugar] + [HypertensionSodium] + [WeightLossCalories];
    MapAppend([DiabetesSugar] + [HypertensionSodium], [WeightLossCalories], Message);
    MapAppend([DiabetesSugar], [HypertensionSodium], Message);
  }
}
