/**
 * The damage calculator: the armor-reduction curve and the five-stage
 * damage pipeline with its audit trail, over exact real numbers.
 */
module Calculator {
  import opened Arithmetic
  import opened DamageTypes

  /** Penetration never ignores more than this fraction of armor. */
  const PenetrationCap: real := 0.75

  /** The five stages, in the order the pipeline applies them. */
  datatype Stage = Increase | Crit | Armor | Reduction | Vulnerability

  const Stages: seq<Stage> := [Increase, Crit, Armor, Reduction, Vulnerability]

  const StageNames: seq<string> := ["增加傷害", "暴擊傷害", "護甲減免", "傷害減免", "承受傷害加成"]

  /** The fixed explanation each stage's audit step carries. */
  const StageDescriptions: seq<string> :=
    ["基礎傷害乘以增加傷害係數", "套用暴擊傷害加成", "扣除護甲減免", "套用傷害減免效果", "套用承受傷害加成效果"]

  /** `x / (x + k)`, the diminishing-returns shape shared by both curves. */
  lemma CurveBounds(x: real, k: real)
    requires 0.0 < x && 0.0 < k
    ensures 0.0 < x / (x + k) < 1.0
  {
  }

  /** Cross-multiplication: `a/b <= c/d` when `a*d <= c*b` and both denominators are positive. */
  lemma FractionLe(a: real, b: real, c: real, d: real)
    requires 0.0 < b && 0.0 < d && a * d <= c * b
    ensures a / b <= c / d
  {
    var p, q := a / b, c / d;
    assert p * b == a && q * d == c;
    assert (p - q) * (b * d) == a * d - c * b;
  }

  lemma CurveMonotone(x: real, y: real, k: real)
    requires 0.0 < x <= y && 0.0 < k
    ensures x / (x + k) <= y / (y + k)
  {
    assert x * (y + k) <= y * (x + k) by {
      assert x * k <= y * k;
    }
    FractionLe(x, x + k, y, y + k);
  }

  /** The penetration curve reaches three quarters exactly from a total of 300 on. */
  lemma PenetrationCurveAtCap(t: real)
    requires 0.0 < t
    ensures t / (t + 100.0) < PenetrationCap <==> t < 300.0
  {
    var e := t / (t + 100.0);
    assert e * (t + 100.0) == t;
    if t < 300.0 {
      assert 4.0 * t < 3.0 * (t + 100.0);
    } else {
      assert 4.0 * t >= 3.0 * (t + 100.0);
    }
  }

  /** `calculateArmorReduction`'s effective penetration: the summed penetration through its curve, then `Math.min(·, 0.75)`. */
  function EffectivePenetration(totalPenetration: real): (e: real)
    ensures 0.0 <= e <= PenetrationCap
    ensures totalPenetration <= 0.0 ==> e == 0.0
    ensures totalPenetration >= 300.0 ==> e == PenetrationCap
    ensures 0.0 < totalPenetration < 300.0 ==> 0.0 < e < PenetrationCap
  {
    var curve := if totalPenetration > 0.0 then totalPenetration / (totalPenetration + 100.0) else 0.0;
    if totalPenetration > 0.0 then
      CurveBounds(totalPenetration, 100.0);
      PenetrationCurveAtCap(totalPenetration);
      if curve < PenetrationCap then curve else PenetrationCap
    else
      if curve < PenetrationCap then curve else PenetrationCap
  }

  /** Up to a total of 300 the cap never cuts the curve short. */
  lemma CurveUncappedUpTo300(t: real)
    requires t <= 300.0
    ensures EffectivePenetration(t) == if t > 0.0 then t / (t + 100.0) else 0.0
  {
    if 0.0 < t {
      PenetrationCurveAtCap(t);
      if t == 300.0 {
        assert t / (t + 100.0) == 0.75;
      }
    }
  }

  /** `calculateArmorReduction`: the fraction of damage that armor absorbs after penetration. */
  function CalculateArmorReduction(params: DamageParameters): (reduction: real)
    ensures 0.0 <= reduction < 1.0
    ensures params.enemyArmor <= 0.0 ==> reduction == 0.0
    ensures params.enemyArmor > 0.0 ==> 0.0 < reduction
  {
    var effectivePenetration := EffectivePenetration(Sum(params.armorPenetrations));
    var effectiveArmor := params.enemyArmor * (1.0 - effectivePenetration);
    if effectiveArmor <= 0.0 then 0.0
    else
      CurveBounds(effectiveArmor, 500.0);
      effectiveArmor / (effectiveArmor + 500.0)
  }

  /** The rate a stage records as its second input value. */
  function StageRate(params: DamageParameters, stage: Stage): real
  {
    match stage
    case Increase => Sum(params.damageIncreases) / 100.0
    case Crit => (params.baseCritDamage + Sum(params.critDamageModifiers)) / 100.0
    case Armor => CalculateArmorReduction(params)
    case Reduction => Sum(params.damageReductions) / 100.0
    case Vulnerability => Sum(params.damageVulnerabilities) / 100.0
  }

  /** How a stage turns its incoming damage and its rate into outgoing damage. */
  function ApplyStage(stage: Stage, damage: real, rate: real): real
  {
    match stage
    case Increase => damage * (1.0 + rate)
    case Crit => damage * (1.0 + rate)
    case Armor => damage * (1.0 - rate)
    case Reduction => damage * (1.0 - rate)
    case Vulnerability => damage * (1.0 + rate)
  }

  /**
   * Step `index` of the trail, recording `stage`: its name and description, its incoming damage,
   * its rate, and the stage applied to both.
   */
  predicate RecordsStage(params: DamageParameters, stage: Stage, index: nat, incoming: real, step: DamageCalculationStep)
    requires index < 5
  {
    step.stepName == StageNames[index]
    && step.description == StageDescriptions[index]
    && step.inputValues == [incoming, StageRate(params, stage)]
    && step.result == ApplyStage(stage, incoming, StageRate(params, stage))
  }

  /** The audit trail of one calculation: the five stages in order, each starting where the previous one ended. */
  predicate AuditTrail(params: DamageParameters, steps: seq<DamageCalculationStep>)
  {
    |steps| == 5
    && RecordsStage(params, Increase, 0, params.baseDamage, steps[0])
    && RecordsStage(params, Crit, 1, steps[0].result, steps[1])
    && RecordsStage(params, Armor, 2, steps[1].result, steps[2])
    && RecordsStage(params, Reduction, 3, steps[2].result, steps[3])
    && RecordsStage(params, Vulnerability, 4, steps[3].result, steps[4])
  }

  /** The damage after running `stages` in order, starting from `damage`. */
  function RunStages(params: DamageParameters, stages: seq<Stage>, damage: real): real
  {
    if stages == [] then damage
    else RunStages(params, stages[1..], ApplyStage(stages[0], damage, StageRate(params, stages[0])))
  }

  /** The unrounded damage: the base damage run through the five stages in order. */
  function UnroundedDamage(params: DamageParameters): real
  {
    RunStages(params, Stages, params.baseDamage)
  }

  /** Running the five stages one after the other. */
  lemma UnroundedUnfolds(params: DamageParameters)
    ensures UnroundedDamage(params) ==
              var d1 := ApplyStage(Increase, params.baseDamage, StageRate(params, Increase));
              var d2 := ApplyStage(Crit, d1, StageRate(params, Crit));
              var d3 := ApplyStage(Armor, d2, StageRate(params, Armor));
              var d4 := ApplyStage(Reduction, d3, StageRate(params, Reduction));
              ApplyStage(Vulnerability, d4, StageRate(params, Vulnerability))
  {
    var s := Stages;
    var d1 := ApplyStage(Increase, params.baseDamage, StageRate(params, Increase));
    var d2 := ApplyStage(Crit, d1, StageRate(params, Crit));
    var d3 := ApplyStage(Armor, d2, StageRate(params, Armor));
    var d4 := ApplyStage(Reduction, d3, StageRate(params, Reduction));
    var d5 := ApplyStage(Vulnerability, d4, StageRate(params, Vulnerability));
    calc {
      RunStages(params, s, params.baseDamage);
      RunStages(params, s[1..], d1);
      { assert s[1..][0] == Crit; }
      RunStages(params, s[1..][1..], d2);
      { assert s[1..][1..][0] == Armor; }
      RunStages(params, s[1..][1..][1..], d3);
      { assert s[1..][1..][1..][0] == Reduction; }
      RunStages(params, s[1..][1..][1..][1..], d4);
      { assert s[1..][1..][1..][1..][0] == Vulnerability; }
      RunStages(params, s[1..][1..][1..][1..][1..], d5);
      { assert s[1..][1..][1..][1..][1..] == []; }
      d5;
    }
  }

  /** Five stage applications in a row multiply by the five factors. */
  lemma ApplyFiveStages(b: real, r1: real, r2: real, r3: real, r4: real, r5: real)
    ensures ApplyStage(Vulnerability, ApplyStage(Reduction, ApplyStage(Armor,
              ApplyStage(Crit, ApplyStage(Increase, b, r1), r2), r3), r4), r5)
            == b * (1.0 + r1) * (1.0 + r2) * (1.0 - r3) * (1.0 - r4) * (1.0 + r5)
  {
  }

  /** The pipeline multiplies the base damage by the five stage factors. */
  lemma UnroundedIsProductOfFactors(params: DamageParameters)
    ensures UnroundedDamage(params) ==
              params.baseDamage
                * (1.0 + StageRate(params, Increase))
                * (1.0 + StageRate(params, Crit))
                * (1.0 - StageRate(params, Armor))
                * (1.0 - StageRate(params, Reduction))
                * (1.0 + StageRate(params, Vulnerability))
  {
    UnroundedUnfolds(params);
    ApplyFiveStages(params.baseDamage, StageRate(params, Increase), StageRate(params, Crit),
                    StageRate(params, Armor), StageRate(params, Reduction), StageRate(params, Vulnerability));
  }

  /** An audit trail ends at the unrounded damage. */
  lemma TrailEndsAtUnroundedDamage(params: DamageParameters, steps: seq<DamageCalculationStep>)
    requires AuditTrail(params, steps)
    ensures steps[4].result == UnroundedDamage(params)
  {
    UnroundedUnfolds(params);
  }

  /**
   * `Math.round(x * 100) / 100`. `Math.round` takes the floor of `x + 1/2`,
   * so halves go up (towards positive infinity), also for negative values.
   */
  function Round2(x: real): (r: real)
    ensures IsWhole(r * 100.0)
    ensures r - 0.005 <= x < r + 0.005
  {
    var k := (x * 100.0 + 0.5).Floor;
    assert (k as real / 100.0) * 100.0 == k as real;
    k as real / 100.0
  }

  /** The two facts in `Round2`'s contract pin its result down. */
  lemma Round2Unique(x: real, r: real)
    requires IsWhole(r * 100.0)
    requires r - 0.005 <= x < r + 0.005
    ensures Round2(x) == r
  {
    var a, b := Round2(x) * 100.0, r * 100.0;
    assert a.Floor as real == a && b.Floor as real == b;
    assert -1.0 < a - b < 1.0;
    assert a.Floor == b.Floor;
  }

  /** `calculate`: five stages, each audited, and one rounding at the end. */
  method Calculate(params: DamageParameters) returns (result: DamageCalculationResult)
    ensures result.isValid && result.errors == []
    ensures AuditTrail(params, result.steps)
    ensures result.finalDamage == Round2(result.steps[4].result)
    ensures result.finalDamage == Round2(UnroundedDamage(params))
  {
    var steps: seq<DamageCalculationStep> := [];
    var currentDamage := params.baseDamage;

    var totalDamageIncrease := Sum(params.damageIncreases) / 100.0;
    var damageAfterIncrease := currentDamage * (1.0 + totalDamageIncrease);
    var increaseStep := DamageCalculationStep("增加傷害", [params.baseDamage, totalDamageIncrease],
                                              damageAfterIncrease, "基礎傷害乘以增加傷害係數");
    assert RecordsStage(params, Increase, 0, params.baseDamage, increaseStep);
    steps := steps + [increaseStep];
    currentDamage := damageAfterIncrease;

    var totalCritDamage := (params.baseCritDamage + Sum(params.critDamageModifiers)) / 100.0;
    var damageAfterCrit := currentDamage * (1.0 + totalCritDamage);
    var critStep := DamageCalculationStep("暴擊傷害", [currentDamage, totalCritDamage],
                                          damageAfterCrit, "套用暴擊傷害加成");
    assert RecordsStage(params, Crit, 1, increaseStep.result, critStep);
    steps := steps + [critStep];
    currentDamage := damageAfterCrit;

    var armorReduction := CalculateArmorReduction(params);
    var damageAfterArmor := currentDamage * (1.0 - armorReduction);
    var armorStep := DamageCalculationStep("護甲減免", [currentDamage, armorReduction],
                                           damageAfterArmor, "扣除護甲減免");
    assert RecordsStage(params, Armor, 2, critStep.result, armorStep);
    steps := steps + [armorStep];
    currentDamage := damageAfterArmor;

    var totalDamageReduction := Sum(params.damageReductions) / 100.0;
    var damageAfterReduction := currentDamage * (1.0 - totalDamageReduction);
    var reductionStep := DamageCalculationStep("傷害減免", [currentDamage, totalDamageReduction],
                                               damageAfterReduction, "套用傷害減免效果");
    assert RecordsStage(params, Reduction, 3, armorStep.result, reductionStep);
    steps := steps + [reductionStep];
    currentDamage := damageAfterReduction;

    var totalVulnerability := Sum(params.damageVulnerabilities) / 100.0;
    var finalDamage := currentDamage * (1.0 + totalVulnerability);
    var vulnerabilityStep := DamageCalculationStep("承受傷害加成", [currentDamage, totalVulnerability],
                                                   finalDamage, "套用承受傷害加成效果");
    assert RecordsStage(params, Vulnerability, 4, reductionStep.result, vulnerabilityStep);
    steps := steps + [vulnerabilityStep];

    assert steps == [increaseStep, critStep, armorStep, reductionStep, vulnerabilityStep];
    result := DamageCalculationResult(Round2(finalDamage), steps, true, []);
    TrailEndsAtUnroundedDamage(params, steps);
  }
}
