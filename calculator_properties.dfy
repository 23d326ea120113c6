/**
 * What the damage calculator promises: bounds and monotonicity of the
 * armor curve, the penetration cap, rounding, and the worked scenarios
 * of the calculator's test suite.
 */
module CalculatorProperties {
  import opened Arithmetic
  import opened DamageTypes
  import opened Calculator

  /** More penetration never lowers effective penetration. */
  lemma EffectivePenetrationMonotone(s: real, t: real)
    requires s <= t
    ensures EffectivePenetration(s) <= EffectivePenetration(t)
  {
    if 0.0 < s && s < 300.0 {
      CurveMonotone(s, t, 100.0);
    }
  }

  /** The armor curve for a raw armor value once a fraction of it is ignored, zero when none is left. */
  function ArmorCurve(armor: real, ignored: real): real
  {
    var effectiveArmor := armor * (1.0 - ignored);
    if effectiveArmor <= 0.0 then 0.0 else effectiveArmor / (effectiveArmor + 500.0)
  }

  lemma ReductionIsArmorCurve(p: DamageParameters)
    ensures CalculateArmorReduction(p) ==
      ArmorCurve(p.enemyArmor, EffectivePenetration(Sum(p.armorPenetrations)))
  {
  }

  lemma CurveNonDecreasing(x: real, y: real)
    requires x <= y
    ensures (if x <= 0.0 then 0.0 else x / (x + 500.0)) <= (if y <= 0.0 then 0.0 else y / (y + 500.0))
  {
    if 0.0 < x {
      CurveMonotone(x, y, 500.0);
    } else if 0.0 < y {
      CurveBounds(y, 500.0);
    }
  }

  lemma ArmorCurveNonIncreasingInIgnored(a: real, u: real, v: real)
    requires 0.0 <= a && u <= v
    ensures ArmorCurve(a, v) <= ArmorCurve(a, u)
  {
    assert a * (1.0 - u) - a * (1.0 - v) == a * (v - u);
    CurveNonDecreasing(a * (1.0 - v), a * (1.0 - u));
  }

  lemma ArmorCurveNonDecreasingInArmor(a: real, b: real, f: real)
    requires a <= b && f <= 1.0
    ensures ArmorCurve(a, f) <= ArmorCurve(b, f)
  {
    assert b * (1.0 - f) - a * (1.0 - f) == (b - a) * (1.0 - f);
    CurveNonDecreasing(a * (1.0 - f), b * (1.0 - f));
  }

  /** For a fixed non-negative armor, a larger penetration total never increases the reduction. */
  lemma ReductionNonIncreasingInPenetration(p: DamageParameters, q: DamageParameters)
    requires p.enemyArmor == q.enemyArmor && 0.0 <= p.enemyArmor
    requires Sum(p.armorPenetrations) <= Sum(q.armorPenetrations)
    ensures CalculateArmorReduction(q) <= CalculateArmorReduction(p)
  {
    var ep := EffectivePenetration(Sum(p.armorPenetrations));
    var eq := EffectivePenetration(Sum(q.armorPenetrations));
    EffectivePenetrationMonotone(Sum(p.armorPenetrations), Sum(q.armorPenetrations));
    ArmorCurveNonIncreasingInIgnored(p.enemyArmor, ep, eq);
    ReductionIsArmorCurve(p);
    ReductionIsArmorCurve(q);
  }

  /** For a fixed penetration total, more armor never decreases the reduction. */
  lemma ReductionNonDecreasingInArmor(p: DamageParameters, q: DamageParameters)
    requires Sum(p.armorPenetrations) == Sum(q.armorPenetrations)
    requires p.enemyArmor <= q.enemyArmor
    ensures CalculateArmorReduction(p) <= CalculateArmorReduction(q)
  {
    var e := EffectivePenetration(Sum(p.armorPenetrations));
    ArmorCurveNonDecreasingInArmor(p.enemyArmor, q.enemyArmor, e);
    ReductionIsArmorCurve(p);
    ReductionIsArmorCurve(q);
  }

  /** Every penetration total of at least 300 gives the reduction of a total of exactly 300. */
  lemma PenetrationSaturatesAt300(p: DamageParameters)
    requires Sum(p.armorPenetrations) >= 300.0
    ensures CalculateArmorReduction(p) == CalculateArmorReduction(p.(armorPenetrations := [300.0]))
  {
    assert Sum([300.0]) == 300.0;
  }

  /** Modifiers that are all zero, with no base crit and no armor, leave the base damage as it was. */
  lemma NeutralModifiersKeepBaseDamage(p: DamageParameters)
    requires forall i :: 0 <= i < |p.damageIncreases| ==> p.damageIncreases[i] == 0.0
    requires p.baseCritDamage == 0.0
    requires forall i :: 0 <= i < |p.critDamageModifiers| ==> p.critDamageModifiers[i] == 0.0
    requires p.enemyArmor <= 0.0
    requires forall i :: 0 <= i < |p.damageReductions| ==> p.damageReductions[i] == 0.0
    requires forall i :: 0 <= i < |p.damageVulnerabilities| ==> p.damageVulnerabilities[i] == 0.0
    ensures UnroundedDamage(p) == p.baseDamage
    ensures Round2(UnroundedDamage(p)) == Round2(p.baseDamage)
  {
    SumOfZeros(p.damageIncreases);
    SumOfZeros(p.critDamageModifiers);
    SumOfZeros(p.damageReductions);
    SumOfZeros(p.damageVulnerabilities);
    UnroundedIsProductOfFactors(p);
  }

  /** A value already on a cent is left unchanged by rounding. */
  lemma Round2KeepsCents(x: real)
    requires IsWhole(x * 100.0)
    ensures Round2(x) == x
  {
    Round2Unique(x, x);
  }

  /** Halves go up, towards positive infinity: 0.005 becomes 0.01 but -0.005 becomes 0. */
  lemma Round2HalvesGoUp()
    ensures Round2(0.005) == 0.01
    ensures Round2(-0.005) == 0.0
  {
    assert IsWhole(0.01 * 100.0);
    Round2Unique(0.005, 0.01);
    assert IsWhole(0.0 * 100.0);
    Round2Unique(-0.005, 0.0);
  }

  function Params(base: real, increases: seq<real>, crit: real, critMods: seq<real>, armor: real,
                  pens: seq<real>, reductions: seq<real>, vulns: seq<real>): DamageParameters
  {
    DamageParameters(base, increases, crit, critMods, armor, pens, reductions, vulns)
  }

  /** Armor 600 without penetration absorbs 600/1100; with penetration [100] it absorbs 0.375. */
  lemma ArmorReductionExamples()
    ensures CalculateArmorReduction(Params(1000.0, [], 0.0, [], 600.0, [], [], [])) == 6.0 / 11.0
    ensures CalculateArmorReduction(Params(1000.0, [], 0.0, [], 600.0, [100.0], [], [])) == 0.375
    ensures CalculateArmorReduction(Params(1000.0, [], 0.0, [], 1000.0, [300.0, 300.0, 300.0], [], [])) == 1.0 / 3.0
    ensures CalculateArmorReduction(Params(1000.0, [], 0.0, [], 0.0, [50.0], [], [])) == 0.0
  {
    assert Sum([100.0]) == 100.0;
    var nine := [300.0, 300.0, 300.0];
    assert nine[..2][..1] == [300.0];
    assert Sum(nine) == 900.0;
  }

  /** The first worked example: 1000 through +30%, +50% crit, armor 600, -10% and +20% gives 957.27. */
  lemma FirstWorkedExample()
    ensures Round2(UnroundedDamage(Params(1000.0, [30.0], 20.0, [30.0], 600.0, [], [10.0], [20.0]))) == 957.27
  {
    var p := Params(1000.0, [30.0], 20.0, [30.0], 600.0, [], [10.0], [20.0]);
    assert Sum([30.0]) == 30.0 && Sum([10.0]) == 10.0 && Sum([20.0]) == 20.0;
    ArmorReductionExamples();
    UnroundedIsProductOfFactors(p);
    assert UnroundedDamage(p) == 10530.0 / 11.0;
    assert IsWhole(957.27 * 100.0);
    Round2Unique(10530.0 / 11.0, 957.27);
  }

  /** The same with penetration [100]: 1316.25. */
  lemma SecondWorkedExample()
    ensures Round2(UnroundedDamage(Params(1000.0, [30.0], 20.0, [30.0], 600.0, [100.0], [10.0], [20.0]))) == 1316.25
  {
    var p := Params(1000.0, [30.0], 20.0, [30.0], 600.0, [100.0], [10.0], [20.0]);
    assert Sum([30.0]) == 30.0 && Sum([10.0]) == 10.0 && Sum([20.0]) == 20.0;
    ArmorReductionExamples();
    UnroundedIsProductOfFactors(p);
    assert UnroundedDamage(p) == 1316.25;
    Round2KeepsCents(1316.25);
  }

  /** A negative reduction is an increase: -20% turns 1000 into 1200. */
  lemma NegativeReductionExample()
    ensures Round2(UnroundedDamage(Params(1000.0, [], 0.0, [], 0.0, [], [-20.0], []))) == 1200.0
  {
    var p := Params(1000.0, [], 0.0, [], 0.0, [], [-20.0], []);
    assert Sum([-20.0]) == -20.0;
    UnroundedIsProductOfFactors(p);
    Round2KeepsCents(1200.0);
  }

  /** Penetration totalling 900 against armor 1200 is capped at 75%: 1000 becomes 625. */
  lemma CappedPenetrationExample()
    ensures Round2(UnroundedDamage(Params(1000.0, [], 0.0, [], 1200.0, [200.0, 300.0, 400.0], [], []))) == 625.0
  {
    var p := Params(1000.0, [], 0.0, [], 1200.0, [200.0, 300.0, 400.0], [], []);
    var pens := [200.0, 300.0, 400.0];
    assert pens[..2][..1] == [200.0];
    assert Sum(pens) == 900.0;
    assert CalculateArmorReduction(p) == 0.375;
    UnroundedIsProductOfFactors(p);
    Round2KeepsCents(625.0);
  }

  /** Only the final value is rounded: +33.336% on 1000 gives 1333.36. */
  lemma RoundingOnceExample()
    ensures Round2(UnroundedDamage(Params(1000.0, [33.336], 0.0, [], 0.0, [], [], []))) == 1333.36
  {
    var p := Params(1000.0, [33.336], 0.0, [], 0.0, [], [], []);
    assert Sum([33.336]) == 33.336;
    UnroundedIsProductOfFactors(p);
    Round2KeepsCents(1333.36);
  }

  lemma SumOfThree(a: real, b: real, c: real)
    ensures Sum([a, b, c]) == a + b + c
  {
    SumSnoc([a, b], c);
    SumSnoc([a], b);
    assert [a, b] + [c] == [a, b, c];
    assert [a] + [b] == [a, b];
    assert Sum([a]) == a by {
      assert [a][..0] == [];
    }
  }

  /** Three penetrations add up before the curve: [50, 75, 25] against armor 800 leaves 1000 * 25/41, shown as 609.76. */
  lemma AccumulatedPenetrationExample()
    ensures Round2(UnroundedDamage(Params(1000.0, [], 0.0, [], 800.0, [50.0, 75.0, 25.0], [], []))) == 609.76
  {
    var p := Params(1000.0, [], 0.0, [], 800.0, [50.0, 75.0, 25.0], [], []);
    SumOfThree(50.0, 75.0, 25.0);
    assert CalculateArmorReduction(p) == 16.0 / 41.0;
    UnroundedIsProductOfFactors(p);
    assert UnroundedDamage(p) == 25000.0 / 41.0;
    assert IsWhole(609.76 * 100.0);
    Round2Unique(25000.0 / 41.0, 609.76);
  }

  /** Lists of modifiers are summed before they apply: +60% from [20, 30, 10], and -45% from [10, 20, 15]. */
  lemma SummedModifiersExample()
    ensures Round2(UnroundedDamage(Params(1000.0, [20.0, 30.0, 10.0], 0.0, [], 0.0, [], [], []))) == 1600.0
    ensures Round2(UnroundedDamage(Params(1000.0, [], 0.0, [], 0.0, [], [10.0, 20.0, 15.0], []))) == 550.0
  {
    var increases := [20.0, 30.0, 10.0];
    SumOfThree(20.0, 30.0, 10.0);
    UnroundedIsProductOfFactors(Params(1000.0, increases, 0.0, [], 0.0, [], [], []));
    Round2KeepsCents(1600.0);
    var reductions := [10.0, 20.0, 15.0];
    SumOfThree(10.0, 20.0, 15.0);
    UnroundedIsProductOfFactors(Params(1000.0, [], 0.0, [], 0.0, [], reductions, []));
    Round2KeepsCents(550.0);
  }

  /** Base crit and crit modifiers add up: 50 + [20, 30] doubles 1000. */
  lemma CritSumExample()
    ensures Round2(UnroundedDamage(Params(1000.0, [], 50.0, [20.0, 30.0], 0.0, [], [], []))) == 2000.0
  {
    var mods := [20.0, 30.0];
    assert mods[..1] == [20.0];
    assert Sum(mods) == 50.0;
    UnroundedIsProductOfFactors(Params(1000.0, [], 50.0, mods, 0.0, [], [], []));
    Round2KeepsCents(2000.0);
  }

  /** +33.333% on 1000 lands exactly on 1333.33. */
  lemma ExactCentsExample()
    ensures Round2(UnroundedDamage(Params(1000.0, [33.333], 0.0, [], 0.0, [], [], []))) == 1333.33
  {
    var p := Params(1000.0, [33.333], 0.0, [], 0.0, [], [], []);
    assert Sum([33.333]) == 33.333;
    UnroundedIsProductOfFactors(p);
    Round2KeepsCents(1333.33);
  }

  /** Armor 9999999999 leaves about 0.00005 of 1000 damage, which rounds to 0. */
  lemma HugeArmorRoundsToZero()
    ensures Round2(UnroundedDamage(Params(1000.0, [], 0.0, [], 9999999999.0, [], [], []))) == 0.0
  {
    var p := Params(1000.0, [], 0.0, [], 9999999999.0, [], [], []);
    UnroundedIsProductOfFactors(p);
    assert UnroundedDamage(p) == 1000.0 * (500.0 / 10000000499.0);
    assert IsWhole(0.0 * 100.0);
    Round2Unique(UnroundedDamage(p), 0.0);
  }

  /** Vulnerabilities add up before they apply: [25, 30, 20] is +75%, so 1000 becomes 1750. */
  lemma SummedVulnerabilitiesExample()
    ensures Round2(UnroundedDamage(Params(1000.0, [], 0.0, [], 0.0, [], [], [25.0, 30.0, 20.0]))) == 1750.0
  {
    SumOfThree(25.0, 30.0, 20.0);
    UnroundedIsProductOfFactors(Params(1000.0, [], 0.0, [], 0.0, [], [], [25.0, 30.0, 20.0]));
    Round2KeepsCents(1750.0);
  }

  /** Reduction and vulnerability multiply: -30% then +50% turns 1000 into 1050. */
  lemma ReductionThenVulnerabilityExample()
    ensures Round2(UnroundedDamage(Params(1000.0, [], 0.0, [], 0.0, [], [30.0], [50.0]))) == 1050.0
  {
    var p := Params(1000.0, [], 0.0, [], 0.0, [], [30.0], [50.0]);
    assert Sum([30.0]) == 30.0 && Sum([50.0]) == 50.0;
    UnroundedIsProductOfFactors(p);
    Round2KeepsCents(1050.0);
  }

  /** 9999% on every modifier takes 100 damage to 100 * 100.99 * 200.98 * 100.99, over two hundred million. */
  lemma HugeModifiersExample()
    ensures Round2(UnroundedDamage(Params(100.0, [9999.0], 9999.0, [9999.0], 0.0, [], [], [9999.0]))) > 200000000.0
  {
    var p := Params(100.0, [9999.0], 9999.0, [9999.0], 0.0, [], [], [9999.0]);
    assert Sum([9999.0]) == 9999.0;
    UnroundedIsProductOfFactors(p);
    assert UnroundedDamage(p) == 100.0 * 100.99 * 200.98 * 100.99;
  }

  /**
   * Every field at a third or so: 333.33 with +33.33%, 33.33 + [33.33] crit, armor 333 with
   * [33.33] penetration, -10.01% and +20.02% comes to 533.4963..., shown as 533.5.
   */
  lemma ComplexPrecisionExample()
    ensures Round2(UnroundedDamage(Params(333.33, [33.33], 33.33, [33.33], 333.0, [33.33], [10.01], [20.02]))) == 533.5
  {
    var p := Params(333.33, [33.33], 33.33, [33.33], 333.0, [33.33], [10.01], [20.02]);
    assert Sum([33.33]) == 33.33 && Sum([10.01]) == 10.01 && Sum([20.02]) == 20.02;
    assert EffectivePenetration(33.33) == 3333.0 / 13333.0;
    assert CalculateArmorReduction(p) == 3330000.0 / 9996500.0;
    UnroundedIsProductOfFactors(p);
    var x := UnroundedDamage(p);
    assert x == 333.33 * 1.3333 * 1.6666 * (13333.0 / 19993.0) * 0.8999 * 1.2002;
    assert 533.495 <= x < 533.505;
    assert IsWhole(533.5 * 100.0);
    Round2Unique(x, 533.5);
  }
}
