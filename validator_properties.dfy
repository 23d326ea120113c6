/**
 * What the validator guarantees to the calculator, and the behaviour its
 * test suite describes, stated on the validator's error lists.
 */
module ValidatorProperties {
  import opened Optional
  import opened Arithmetic
  import opened Decimals
  import opened DamageTypes
  import opened Validator
  import Calculator

  /**
   * A penetration list the validator accepts totals between 0 and 300, so the
   * calculator's 75% cap never cuts its effective penetration short.
   */
  lemma ValidatedPenetrationIsNotClamped(xs: seq<Num>)
    requires PenetrationErrors(Arr(xs)) == []
    ensures 0.0 <= Sum(Amounts(xs)) <= 300.0
    ensures var total := Sum(Amounts(xs));
      Calculator.EffectivePenetration(total) == if total > 0.0 then total / (total + 100.0) else 0.0
  {
    PenetrationErrorsExact(Arr(xs));
    var total := Sum(Amounts(xs));
    SumNonNegative(Amounts(xs));
    Calculator.CurveUncappedUpTo300(total);
  }

  function Number(mantissa: int, scale: nat): Num
  {
    Finite(Decimal(mantissa, scale))
  }

  /** Totals of 300 or less pass: [300] (exactly 75%) and [150, 150]. */
  lemma PenetrationsAtTheCapPass()
    ensures PenetrationErrors(Arr([Number(300, 0)])) == []
    ensures PenetrationErrors(Arr([Number(150, 0), Number(150, 0)])) == []
  {
    var single := [Number(300, 0)];
    assert Amounts(single) == [300.0];
    PenetrationErrorsExact(Arr(single));
    var pair := [Number(150, 0), Number(150, 0)];
    assert Amounts(pair) == [150.0, 150.0];
    assert Amounts(pair)[..1] == [150.0];
    PenetrationErrorsExact(Arr(pair));
  }

  /** [300, 300, 300] totals 900, an effective 90%: the cap message is the only error. */
  lemma PenetrationsOverTheCapFail()
    ensures PenetrationErrors(Arr([Number(300, 0), Number(300, 0), Number(300, 0)])) == [PenetrationCap(75.0)]
  {
    var xs := [Number(300, 0), Number(300, 0), Number(300, 0)];
    var totals := [300.0, 300.0, 300.0];
    SumSnoc([], 300.0);
    SumSnoc([300.0], 300.0);
    SumSnoc([300.0, 300.0], 300.0);
    assert Sum(totals) == 900.0;
    assert Amounts(xs) == totals;
    PenetrationErrorsExact(Arr(xs));
    ArrayErrorsExact(Arr(xs), 0.0, 999.99, 2, PenetrationName);
  }

  /** [999.99] is in range and has two places, but on its own already exceeds the 75% cap. */
  lemma LargestPenetrationHitsCap()
    ensures PenetrationErrors(Arr([Number(99999, 2)])) == [PenetrationCap(75.0)]
  {
    var xs := [Number(99999, 2)];
    assert Amounts(xs) == [999.99];
    SumSnoc([], 999.99);
    assert Sum(Amounts(xs)) > 300.0;
    assert Admissible(xs[0], 0.0, 999.99, 2) by {
      assert Scaled(999.99, 2) == 99999.0;
    }
    assert AdmissiblePenetrations(xs);
    ArrayErrorsExact(Arr(xs), 0.0, 999.99, 2, PenetrationName);
    assert ArrayErrors(Arr(xs), 0.0, 999.99, 2, PenetrationName) == [];
    CapExceededIff(999.99);
    assert CapExceeded(xs, 75.0);
  }

  /** [1000] is out of range; the cap is not checked once an element has failed. */
  lemma PenetrationOutOfRangeSkipsCap()
    ensures PenetrationErrors(Arr([Number(1000, 0)])) == [AboveMax(Element(PenetrationName, 0), 999.99)]
  {
    var xs := [Number(1000, 0)];
    assert IsWhole(Value(Decimal(1000, 0)));
    assert ArrayErrors(Arr(xs), 0.0, 999.99, 2, PenetrationName) == [AboveMax(Element(PenetrationName, 0), 999.99)];
  }

  /** 0.005 is both below the minimum and has three places, and both are reported, in that order. */
  lemma TinyBaseDamageReportsBoth()
    ensures BaseDamageErrors(Some(Number(5, 3))) ==
      [BelowMin(Field(BaseDamageName), 0.01), TooManyPlaces(Field(BaseDamageName), 2)]
  {
    var n := Number(5, 3);
    assert Amount(n) == 0.005;
    assert !HasAtMostPlaces(0.005, 2) by {
      assert Scaled(0.005, 2) == 0.5;
    }
    FormatErrorsExact(n, 2, Field(BaseDamageName));
  }

  /** 12.34 passes a two-place check, 12.345 does not. */
  lemma TwoPlaceCheck()
    ensures FormatErrors(Number(1234, 2), 2, Field("x")) == []
    ensures FormatErrors(Number(12345, 3), 2, Field("x")) == [TooManyPlaces(Field("x"), 2)]
  {
    assert Scaled(Amount(Number(1234, 2)), 2) == 1234.0;
    FormatErrorsExact(Number(1234, 2), 2, Field("x"));
    assert Scaled(Amount(Number(12345, 3)), 2) == 1234.5;
    FormatErrorsExact(Number(12345, 3), 2, Field("x"));
  }

  /** Armor 600 passes, and -100 is reported as below the minimum of 0. */
  lemma ArmorValueExamples()
    ensures ArmorValueErrors(Number(600, 0)) == []
    ensures BelowMin(Field(ArmorName), 0.0) in ArmorValueErrors(Number(-100, 0))
  {
    ArmorValueErrorsExact(Number(600, 0));
  }

  /** Armor must be whole: 600 passes, while 600.5 and 600.05 report that no decimal places are allowed. */
  lemma ArmorPrecisionExamples()
    ensures ArmorValueErrors(Number(600, 0)) == []
    ensures TooManyPlaces(Field(ArmorName), 0) in ArmorValueErrors(Number(6005, 1))
    ensures TooManyPlaces(Field(ArmorName), 0) in ArmorValueErrors(Number(60005, 2))
  {
    ArmorValueErrorsExact(Number(600, 0));
    FormatErrorsExact(Number(6005, 1), 0, Field(ArmorName));
    assert Scaled(Amount(Number(6005, 1)), 0) == 600.5;
    FormatErrorsExact(Number(60005, 2), 0, Field(ArmorName));
    assert Scaled(Amount(Number(60005, 2)), 0) == 600.05;
  }

  /** The default rules carry the documented bounds, precisions and the 75% cap. */
  lemma DefaultRuleValues()
    ensures var rules := GetDefaultRules();
      rules.baseDamage == BaseDamageRule(0.01, 9999999999.0, true, 2)
      && rules.damageModifiers == NumberRule(-99.0, 9999.0, 2)
      && rules.armor == NumberRule(0.0, 9999999999.0, 0)
      && rules.armorPenetration == PenetrationRule(0.0, 999.99, 2, 75.0)
  {
  }

  /** Totals of 400 fail on the cap alone, whether from [100, 100, 100, 100] or [200, 200]. */
  lemma PenetrationsOf400Fail()
    ensures PenetrationErrors(Arr([Number(100, 0), Number(100, 0), Number(100, 0), Number(100, 0)])) == [PenetrationCap(75.0)]
    ensures PenetrationErrors(Arr([Number(200, 0), Number(200, 0)])) == [PenetrationCap(75.0)]
  {
    var four := [Number(100, 0), Number(100, 0), Number(100, 0), Number(100, 0)];
    assert Sum(Amounts(four)) == 400.0 by {
      assert Amounts(four) == [100.0, 100.0, 100.0, 100.0];
      assert Sum([100.0]) == 100.0 by { assert [100.0][..0] == []; }
      assert Sum([100.0, 100.0]) == 200.0 by { assert [100.0, 100.0][..1] == [100.0]; }
      assert Sum([100.0, 100.0, 100.0]) == 300.0 by { assert [100.0, 100.0, 100.0][..2] == [100.0, 100.0]; }
      assert [100.0, 100.0, 100.0, 100.0][..3] == [100.0, 100.0, 100.0];
    }
    PenetrationErrorsExact(Arr(four));
    ArrayErrorsExact(Arr(four), 0.0, 999.99, 2, PenetrationName);
    var two := [Number(200, 0), Number(200, 0)];
    assert Sum(Amounts(two)) == 400.0 by {
      assert Amounts(two) == [200.0, 200.0];
      assert [200.0, 200.0][..1] == [200.0];
    }
    PenetrationErrorsExact(Arr(two));
    ArrayErrorsExact(Arr(two), 0.0, 999.99, 2, PenetrationName);
  }

  /** A single whole modifier inside [-99, 9999] passes. */
  lemma WholeModifierPasses(k: int, name: string)
    requires -99 <= k <= 9999
    ensures ModifierErrors(Arr([Number(k, 0)]), name) == []
  {
    assert Scaled(k as real, 1) == (k * 10) as real;
    assert Scaled(k as real, 2) == (k * 100) as real;
    ModifierErrorsExact(Arr([Number(k, 0)]), name);
  }

  /** The checks of each of 30, -100 and 20.555 as modifiers. */
  lemma MixedIncreasesElementChecks(name: string)
    ensures RangeErrors(Number(30, 0), -99.0, 9999.0, Element(name, 0)) == []
    ensures FormatErrors(Number(30, 0), 2, Element(name, 0)) == []
    ensures RangeErrors(Number(-100, 0), -99.0, 9999.0, Element(name, 1)) == [BelowMin(Element(name, 1), -99.0)]
    ensures FormatErrors(Number(-100, 0), 2, Element(name, 1)) == []
    ensures RangeErrors(Number(20555, 3), -99.0, 9999.0, Element(name, 2)) == []
    ensures FormatErrors(Number(20555, 3), 2, Element(name, 2)) == [TooManyPlaces(Element(name, 2), 2)]
  {
    assert FormatErrors(Number(30, 0), 2, Element(name, 0)) == [] by {
      assert Scaled(30.0, 2) == 3000.0;
      FormatErrorsExact(Number(30, 0), 2, Element(name, 0));
    }
    assert FormatErrors(Number(-100, 0), 2, Element(name, 1)) == [] by {
      assert Scaled(-100.0, 2) == -10000.0;
      FormatErrorsExact(Number(-100, 0), 2, Element(name, 1));
    }
    assert Amount(Number(20555, 3)) == 20.555;
    assert FormatErrors(Number(20555, 3), 2, Element(name, 2)) == [TooManyPlaces(Element(name, 2), 2)] by {
      assert Scaled(20.555, 2) == 2055.5;
      FormatErrorsExact(Number(20555, 3), 2, Element(name, 2));
    }
  }

  /** [30, -100, 20.555]: element 1 is below -99 and element 2 has three places; element 0 passes. */
  lemma MixedIncreasesErrors()
    ensures ModifierErrors(Arr([Number(30, 0), Number(-100, 0), Number(20555, 3)]), "增加傷害") ==
      [BelowMin(Element("增加傷害", 1), -99.0), TooManyPlaces(Element("增加傷害", 2), 2)]
  {
    var name := "增加傷害";
    var xs := [Number(30, 0), Number(-100, 0), Number(20555, 3)];
    var below := BelowMin(Element(name, 1), -99.0);
    var places := TooManyPlaces(Element(name, 2), 2);
    MixedIncreasesElementChecks(name);
    assert ElementsErrors(xs, 1, -99.0, 9999.0, 2, name) == [] by {
      ElementsErrorsStep(xs, 0, -99.0, 9999.0, 2, name);
    }
    assert ElementsErrors(xs, 2, -99.0, 9999.0, 2, name) == [below] by {
      ElementsErrorsStep(xs, 1, -99.0, 9999.0, 2, name);
    }
    assert ElementsErrors(xs, 3, -99.0, 9999.0, 2, name) == [below, places] by {
      ElementsErrorsStep(xs, 2, -99.0, 9999.0, 2, name);
    }
  }

  /** Armor 600.5 is in range but not whole: one precision message. */
  lemma FractionalArmorErrors()
    ensures ArmorValueErrors(Number(6005, 1)) == [TooManyPlaces(Field(ArmorName), 0)]
  {
    assert Amount(Number(6005, 1)) == 600.5;
    assert Scaled(600.5, 0) == 600.5;
    FormatErrorsExact(Number(6005, 1), 0, Field(ArmorName));
  }

  /** [50, 1000]: element 1 is above 999.99, so the cap is not checked. */
  lemma PenetrationAboveMaxErrors()
    ensures PenetrationErrors(Arr([Number(50, 0), Number(1000, 0)])) == [AboveMax(Element(PenetrationName, 1), 999.99)]
  {
    var xs := [Number(50, 0), Number(1000, 0)];
    assert FormatErrors(xs[0], 2, Element(PenetrationName, 0)) == [] by {
      assert Scaled(50.0, 2) == 5000.0;
      FormatErrorsExact(xs[0], 2, Element(PenetrationName, 0));
    }
    assert FormatErrors(xs[1], 2, Element(PenetrationName, 1)) == [] by {
      assert Scaled(1000.0, 2) == 100000.0;
      FormatErrorsExact(xs[1], 2, Element(PenetrationName, 1));
    }
    assert ElementsErrors(xs, 1, 0.0, 999.99, 2, PenetrationName) == [];
    assert ArrayErrors(Arr(xs), 0.0, 999.99, 2, PenetrationName) == [AboveMax(Element(PenetrationName, 1), 999.99)];
  }

  /** Fields that pass add nothing: the record's errors are those of the failing fields, in field order. */
  lemma RecordErrorsOfFailingFields(input: ParameterInput)
    ensures ModifierErrors(Arr([input.baseCritDamage]), "基礎暴擊傷害") == []
         && ModifierErrors(input.critDamageModifiers, "暴擊傷害加成") == []
         && ModifierErrors(input.damageReductions, "傷害減免") == []
         && ModifierErrors(input.damageVulnerabilities, "承受傷害加成") == []
      ==> ParameterErrors(input) ==
            BaseDamageErrors(input.baseDamage) + ModifierErrors(input.damageIncreases, "增加傷害")
            + ArmorValueErrors(input.enemyArmor) + PenetrationErrors(input.armorPenetrations)
  {
    var base, increases := BaseDamageErrors(input.baseDamage), ModifierErrors(input.damageIncreases, "增加傷害");
    var armor, penetrations := ArmorValueErrors(input.enemyArmor), PenetrationErrors(input.armorPenetrations);
    if ModifierErrors(Arr([input.baseCritDamage]), "基礎暴擊傷害") == []
       && ModifierErrors(input.critDamageModifiers, "暴擊傷害加成") == []
       && ModifierErrors(input.damageReductions, "傷害減免") == []
       && ModifierErrors(input.damageVulnerabilities, "承受傷害加成") == []
    {
      assert ParameterErrors(input) == base + increases + [] + [] + armor + penetrations + [] + [];
      DropEmptyParts(base, increases, armor, penetrations);
    }
  }

  lemma DropEmptyParts(a: seq<Message>, b: seq<Message>, c: seq<Message>, d: seq<Message>)
    ensures a + b + [] + [] + c + d + [] + [] == a + b + c + d
  {
    assert a + b + [] + [] == a + b;
    assert a + b + c + d + [] + [] == a + b + c + d;
  }

  /**
   * A record mixing valid and invalid fields: every field is checked, none stops the others,
   * and the messages come in field order.
   */
  lemma MixedRecordCollectsEveryError()
    ensures ParameterErrors(ParameterInput(
        Some(Number(5, 3)),
        Arr([Number(30, 0), Number(-100, 0), Number(20555, 3)]),
        Number(505, 1),
        Arr([Number(25, 0)]),
        Number(6005, 1),
        Arr([Number(50, 0), Number(1000, 0)]),
        Arr([Number(10, 0)]),
        Arr([Number(20, 0)])))
      == [BelowMin(Field(BaseDamageName), 0.01), TooManyPlaces(Field(BaseDamageName), 2)]
        + [BelowMin(Element("增加傷害", 1), -99.0), TooManyPlaces(Element("增加傷害", 2), 2)]
        + [TooManyPlaces(Field(ArmorName), 0)]
        + [AboveMax(Element(PenetrationName, 1), 999.99)]
  {
    var input := ParameterInput(
      Some(Number(5, 3)),
      Arr([Number(30, 0), Number(-100, 0), Number(20555, 3)]),
      Number(505, 1),
      Arr([Number(25, 0)]),
      Number(6005, 1),
      Arr([Number(50, 0), Number(1000, 0)]),
      Arr([Number(10, 0)]),
      Arr([Number(20, 0)]));
    TinyBaseDamageReportsBoth();
    MixedIncreasesErrors();
    assert ModifierErrors(Arr([input.baseCritDamage]), "基礎暴擊傷害") == [] by {
      assert Scaled(Amount(Number(505, 1)), 2) == 5050.0;
      ModifierErrorsExact(Arr([Number(505, 1)]), "基礎暴擊傷害");
    }
    WholeModifierPasses(25, "暴擊傷害加成");
    FractionalArmorErrors();
    PenetrationAboveMaxErrors();
    WholeModifierPasses(10, "傷害減免");
    WholeModifierPasses(20, "承受傷害加成");
    RecordErrorsOfFailingFields(input);
  }

  /** A record that fails in several fields reports more than one error, among them both of the base damage. */
  lemma InvalidRecordReportsSeveral()
    ensures var errors := ParameterErrors(ParameterInput(
        Some(Number(5, 3)),
        Arr([Number(-100, 0)]),
        Number(-1, 0),
        Arr([Number(10000, 0)]),
        Number(-100, 0),
        Arr([Number(1000, 0)]),
        Arr([Number(10123, 3)]),
        Arr([])));
      |errors| > 1
      && BelowMin(Field(BaseDamageName), 0.01) in errors
      && TooManyPlaces(Field(BaseDamageName), 2) in errors
  {
    var input := ParameterInput(
      Some(Number(5, 3)),
      Arr([Number(-100, 0)]),
      Number(-1, 0),
      Arr([Number(10000, 0)]),
      Number(-100, 0),
      Arr([Number(1000, 0)]),
      Arr([Number(10123, 3)]),
      Arr([]));
    TinyBaseDamageReportsBoth();
  }
}
