/**
 * The parameter validator of the damage calculator.
 *
 * Every check reports a `ValidationResult` whose error list is built by
 * appending messages in a fixed order. Each validating method is tied to a
 * function that names its error list (`RangeErrors`, `ArrayErrors`, ...),
 * and each of those functions states when its list is empty.
 */
module Validator {
  import opened Optional
  import opened Arithmetic
  import opened Decimals
  import opened DamageTypes

  /** The default rules: inclusive bounds, allowed decimal places, and the 75% penetration cap. */
  const DefaultRules: ValidationRules := ValidationRules(
    BaseDamageRule(0.01, 9999999999.0, true, 2),
    NumberRule(-99.0, 9999.0, 2),
    NumberRule(0.0, 9999999999.0, 0),
    PenetrationRule(0.0, 999.99, 2, 75.0))

  const BaseDamageName: string := "基礎傷害"
  const ArmorName: string := "護甲值"
  const PenetrationName: string := "穿甲效果"

  /** A copy of the default rules; every range is non-empty and base damage is required. */
  function GetDefaultRules(): (rules: ValidationRules)
    ensures rules.baseDamage.required
    ensures 0.0 < rules.baseDamage.min <= rules.baseDamage.max
    ensures rules.damageModifiers.min <= rules.damageModifiers.max
    ensures 0.0 <= rules.armor.min <= rules.armor.max && rules.armor.precision == 0
    ensures 0.0 <= rules.armorPenetration.min <= rules.armorPenetration.max
    ensures 0.0 < rules.armorPenetration.effectiveCap < 100.0
  {
    DefaultRules
  }

  /** The value of a finite number. */
  function Amount(n: Num): real
    requires n.Finite?
  {
    Value(n.d)
  }

  /** The values of a list of finite numbers. */
  function Amounts(xs: seq<Num>): (rs: seq<real>)
    requires forall j :: 0 <= j < |xs| ==> xs[j].Finite?
    ensures |rs| == |xs|
    ensures forall j :: 0 <= j < |xs| ==> rs[j] == Amount(xs[j])
  {
    if xs == [] then [] else Amounts(xs[..|xs| - 1]) + [Amount(xs[|xs| - 1])]
  }

  /** A missing value is not a finite number, so both numeric checks reject it as they reject NaN. */
  function Given(value: Option<Num>): Num
  {
    match value
    case Some(n) => n
    case None => NaN
  }

  /** Whether `m` is one of the messages about a single value, and that value is `name`. */
  predicate About(m: Message, name: Label)
  {
    (m.InvalidNumber? || m.BelowMin? || m.AboveMax? || m.TooManyPlaces?) && m.subject == name
  }

  predicate InRange(n: Num, min: real, max: real)
  {
    n.Finite? && min <= Amount(n) <= max
  }

  /** Finite, in range, and with at most `precision` decimal places: what the validator is meant to accept. */
  predicate Admissible(n: Num, min: real, max: real, precision: nat)
  {
    InRange(n, min, max) && HasAtMostPlaces(Amount(n), precision)
  }

  /** The errors of the range check of `value`. */
  function RangeErrors(value: Num, min: real, max: real, name: Label): (errors: seq<Message>)
    ensures errors == [] <==> InRange(value, min, max)
    ensures !value.Finite? ==> errors == [InvalidNumber(name)]
    ensures value.Finite? ==> (BelowMin(name, min) in errors <==> Amount(value) < min)
    ensures value.Finite? ==> (AboveMax(name, max) in errors <==> Amount(value) > max)
    ensures value.Finite? ==>
      InvalidNumber(name) !in errors
      && |errors| == (if Amount(value) < min then 1 else 0) + (if Amount(value) > max then 1 else 0)
    ensures forall m <- errors :: About(m, name)
  {
    if !value.Finite? then [InvalidNumber(name)]
    else
      (if Amount(value) < min then [BelowMin(name, min)] else [])
      + (if Amount(value) > max then [AboveMax(name, max)] else [])
  }

  /** The errors of the precision check of `value`, which counts places as `GetDecimalPlaces` does. */
  function FormatErrors(value: Num, precision: nat, name: Label): (errors: seq<Message>)
    ensures errors == [] <==> value.Finite? && GetDecimalPlaces(value.d) <= precision
    ensures !value.Finite? ==> errors == [InvalidNumber(name)]
    ensures value.Finite? && errors != [] ==> errors == [TooManyPlaces(name, precision)]
    ensures forall m <- errors :: About(m, name)
  {
    if !value.Finite? then [InvalidNumber(name)]
    else
      var decimalPlaces := GetDecimalPlaces(value.d);
      if decimalPlaces > precision then [TooManyPlaces(name, precision)] else []
  }

  /** With at most six places allowed, the precision check rejects exactly the values with more places. */
  lemma FormatErrorsExact(value: Num, precision: nat, name: Label)
    requires value.Finite? && precision <= 6
    ensures FormatErrors(value, precision, name) == [] <==> HasAtMostPlaces(Amount(value), precision)
  {
    PrecisionCheckIsExact(value.d, precision);
  }

  /** Whether the precision check passes `value`. */
  predicate PassesFormat(value: Num, precision: nat)
  {
    value.Finite? && GetDecimalPlaces(value.d) <= precision
  }

  /** Whether element `n` of an array passes both checks. */
  predicate ElementPasses(n: Num, min: real, max: real, precision: nat)
  {
    InRange(n, min, max) && PassesFormat(n, precision)
  }

  /** Whether `m` is a message about element `index < count` of the array `name`. */
  predicate AboutElementBefore(m: Message, name: string, count: nat)
  {
    (m.InvalidNumber? || m.BelowMin? || m.AboveMax? || m.TooManyPlaces?)
    && m.subject.Element? && m.subject.name == name && m.subject.index < count
  }

  /** The errors of the first `count` elements, element by element: range errors, then precision errors. */
  function ElementsErrors(xs: seq<Num>, count: nat, min: real, max: real, precision: nat, name: string): (errors: seq<Message>)
    requires count <= |xs|
    ensures errors == [] <==> forall j :: 0 <= j < count ==> ElementPasses(xs[j], min, max, precision)
    decreases count
  {
    if count == 0 then []
    else
      var i := count - 1;
      var before := ElementsErrors(xs, i, min, max, precision, name);
      var range := RangeErrors(xs[i], min, max, Element(name, i));
      var format := FormatErrors(xs[i], precision, Element(name, i));
      assert before + range + format == [] <==> before == [] && range == [] && format == [];
      before + range + format
  }

  /** One more element appends its range errors, then its precision errors. */
  lemma ElementsErrorsStep(xs: seq<Num>, i: nat, min: real, max: real, precision: nat, name: string)
    requires i < |xs|
    ensures ElementsErrors(xs, i + 1, min, max, precision, name)
      == ElementsErrors(xs, i, min, max, precision, name)
        + RangeErrors(xs[i], min, max, Element(name, i))
        + FormatErrors(xs[i], precision, Element(name, i))
  {
  }

  lemma ElementMessagesAppend(before: seq<Message>, range: seq<Message>, format: seq<Message>, name: string, i: nat)
    requires forall m <- before :: AboutElementBefore(m, name, i)
    requires forall m <- range :: About(m, Element(name, i))
    requires forall m <- format :: About(m, Element(name, i))
    ensures forall m <- before + range + format :: AboutElementBefore(m, name, i + 1)
  {
    forall m | m in before + range + format
      ensures AboutElementBefore(m, name, i + 1)
    {
      if m !in before && m !in range {
        assert m in format;
      }
    }
  }

  /** Every message about the first `count` elements names one of them. */
  lemma {:induction false} ElementsErrorsNameTheirElement(xs: seq<Num>, count: nat, min: real, max: real, precision: nat, name: string)
    requires count <= |xs|
    ensures forall m <- ElementsErrors(xs, count, min, max, precision, name) :: AboutElementBefore(m, name, count)
    decreases count
  {
    if count > 0 {
      var i := count - 1;
      ElementsErrorsNameTheirElement(xs, i, min, max, precision, name);
      ElementsErrorsStep(xs, i, min, max, precision, name);
      ElementMessagesAppend(ElementsErrors(xs, i, min, max, precision, name),
        RangeErrors(xs[i], min, max, Element(name, i)), FormatErrors(xs[i], precision, Element(name, i)), name, i);
    }
  }

  /** The errors of an array parameter: one message if it is not an array, else those of its elements. */
  function ArrayErrors(values: ArrayArg, min: real, max: real, precision: nat, name: string): (errors: seq<Message>)
    ensures values.NotArray? ==> errors == [NotAnArray(name)]
    ensures errors == [] <==>
      values.Arr? && forall j :: 0 <= j < |values.elems| ==> ElementPasses(values.elems[j], min, max, precision)
  {
    match values
    case NotArray => [NotAnArray(name)]
    case Arr(xs) => ElementsErrors(xs, |xs|, min, max, precision, name)
  }

  /** With at most six places allowed, the per-element checks accept exactly the admissible values. */
  lemma {:induction false} ArrayErrorsExact(values: ArrayArg, min: real, max: real, precision: nat, name: string)
    requires precision <= 6
    ensures ArrayErrors(values, min, max, precision, name) == [] <==>
      values.Arr? && forall j :: 0 <= j < |values.elems| ==> Admissible(values.elems[j], min, max, precision)
  {
    if values.Arr? {
      forall j | 0 <= j < |values.elems|
        ensures ElementPasses(values.elems[j], min, max, precision) <==> Admissible(values.elems[j], min, max, precision)
      {
        if values.elems[j].Finite? {
          PrecisionCheckIsExact(values.elems[j].d, precision);
        }
      }
    }
  }

  /** The errors of the base damage: the required check, then range, then precision. */
  function BaseDamageErrors(baseDamage: Option<Num>): (errors: seq<Message>)
    ensures baseDamage.None? ==>
      errors == [Required, InvalidNumber(Field(BaseDamageName)), InvalidNumber(Field(BaseDamageName))]
    ensures baseDamage.Some? && !baseDamage.value.Finite? ==>
      errors == [InvalidNumber(Field(BaseDamageName)), InvalidNumber(Field(BaseDamageName))]
  {
    var rules := DefaultRules.baseDamage;
    var value := Given(baseDamage);
    (if rules.required && baseDamage.None? then [Required] else [])
    + RangeErrors(value, rules.min, rules.max, Field(BaseDamageName))
    + FormatErrors(value, rules.precision, Field(BaseDamageName))
  }

  /** Base damage passes exactly when it is given, finite, in [0.01, 9999999999] and has at most two places. */
  lemma BaseDamageErrorsExact(baseDamage: Option<Num>)
    ensures BaseDamageErrors(baseDamage) == [] <==>
      baseDamage.Some? && Admissible(baseDamage.value, DefaultRules.baseDamage.min, DefaultRules.baseDamage.max,
                                     DefaultRules.baseDamage.precision)
  {
    if baseDamage.Some? && baseDamage.value.Finite? {
      FormatErrorsExact(baseDamage.value, DefaultRules.baseDamage.precision, Field(BaseDamageName));
    }
  }

  /** The errors of a list of percentage modifiers. */
  function ModifierErrors(values: ArrayArg, name: string): (errors: seq<Message>)
    ensures values.NotArray? ==> errors == [NotAnArray(name)]
  {
    var rules := DefaultRules.damageModifiers;
    ArrayErrors(values, rules.min, rules.max, rules.precision, name)
  }

  /** A list of percentage modifiers passes exactly when every entry is in [-99, 9999] with at most two places. */
  lemma ModifierErrorsExact(values: ArrayArg, name: string)
    ensures ModifierErrors(values, name) == [] <==>
      values.Arr? && forall j :: 0 <= j < |values.elems| ==>
        Admissible(values.elems[j], DefaultRules.damageModifiers.min, DefaultRules.damageModifiers.max,
                   DefaultRules.damageModifiers.precision)
  {
    var rules := DefaultRules.damageModifiers;
    ArrayErrorsExact(values, rules.min, rules.max, rules.precision, name);
  }

  /** The errors of the enemy armor: range, then precision (no decimal places are allowed). */
  function ArmorValueErrors(armor: Num): (errors: seq<Message>)
    ensures !armor.Finite? ==> errors == [InvalidNumber(Field(ArmorName)), InvalidNumber(Field(ArmorName))]
  {
    var rules := DefaultRules.armor;
    RangeErrors(armor, rules.min, rules.max, Field(ArmorName))
    + FormatErrors(armor, rules.precision, Field(ArmorName))
  }

  /** Armor passes exactly when it is a whole number in [0, 9999999999]. */
  lemma ArmorValueErrorsExact(armor: Num)
    ensures ArmorValueErrors(armor) == [] <==>
      InRange(armor, DefaultRules.armor.min, DefaultRules.armor.max) && IsWhole(Amount(armor))
  {
    if armor.Finite? {
      FormatErrorsExact(armor, 0, Field(ArmorName));
      assert Scaled(Amount(armor), 0) == Amount(armor);
    }
  }

  lemma QuotientSign(a: real, b: real)
    requires 0.0 < b
    ensures a / b > 0.0 <==> a > 0.0
  {
  }

  /** Effective penetration `total / (total + 100)` exceeds 75% exactly when the total exceeds 300. */
  lemma CapExceededIff(total: real)
    requires 0.0 <= total
    ensures total / (total + 100.0) > 0.75 <==> total > 300.0
  {
    assert total / (total + 100.0) - 0.75 == (0.25 * total - 75.0) / (total + 100.0);
    QuotientSign(0.25 * total - 75.0, total + 100.0);
  }

  /** Whether a list of non-negative penetrations has an effective rate above `cap` percent. */
  predicate CapExceeded(xs: seq<Num>, cap: real)
    requires forall j :: 0 <= j < |xs| ==> xs[j].Finite? && 0.0 <= Amount(xs[j])
  {
    var totalPenetration := Sum(Amounts(xs));
    SumNonNegative(Amounts(xs));
    totalPenetration / (totalPenetration + 100.0) > cap / 100.0
  }

  /** The errors of the penetration list: those of the array, then the cap when the array itself passed. */
  function PenetrationErrors(penetrations: ArrayArg): (errors: seq<Message>)
    ensures penetrations.NotArray? ==> errors == [NotAnArray(PenetrationName)]
  {
    var rules := DefaultRules.armorPenetration;
    var arrayErrors := ArrayErrors(penetrations, rules.min, rules.max, rules.precision, PenetrationName);
    if arrayErrors == [] && |penetrations.elems| > 0 && CapExceeded(penetrations.elems, rules.effectiveCap) then
      arrayErrors + [PenetrationCap(rules.effectiveCap)]
    else
      arrayErrors
  }

  /** Whether every penetration is finite, in [0, 999.99] and has at most two places. */
  predicate AdmissiblePenetrations(xs: seq<Num>)
  {
    var rules := DefaultRules.armorPenetration;
    forall j :: 0 <= j < |xs| ==> Admissible(xs[j], rules.min, rules.max, rules.precision)
  }

  /**
   * The penetration list passes exactly when every entry is admissible and they total at most 300;
   * the cap message appears exactly when every entry is admissible but they total more than 300.
   */
  lemma PenetrationErrorsExact(penetrations: ArrayArg)
    ensures PenetrationErrors(penetrations) == [] <==>
      penetrations.Arr? && AdmissiblePenetrations(penetrations.elems) && Sum(Amounts(penetrations.elems)) <= 300.0
    ensures PenetrationCap(DefaultRules.armorPenetration.effectiveCap) in PenetrationErrors(penetrations) <==>
      penetrations.Arr? && AdmissiblePenetrations(penetrations.elems) && Sum(Amounts(penetrations.elems)) > 300.0
  {
    var rules := DefaultRules.armorPenetration;
    ArrayErrorsExact(penetrations, rules.min, rules.max, rules.precision, PenetrationName);
    if ArrayErrors(penetrations, rules.min, rules.max, rules.precision, PenetrationName) == [] {
      PenetrationsPassingArrayChecks(penetrations.elems);
    } else {
      PenetrationsFailingArrayChecks(penetrations);
    }
  }

  lemma PenetrationsPassingArrayChecks(xs: seq<Num>)
    requires AdmissiblePenetrations(xs)
    requires ArrayErrors(Arr(xs), 0.0, 999.99, 2, PenetrationName) == []
    ensures PenetrationErrors(Arr(xs)) == [] <==> Sum(Amounts(xs)) <= 300.0
    ensures PenetrationCap(75.0) in PenetrationErrors(Arr(xs)) <==> Sum(Amounts(xs)) > 300.0
  {
    SumNonNegative(Amounts(xs));
    if xs == [] {
      assert Amounts(xs) == [];
    } else {
      CapExceededIff(Sum(Amounts(xs)));
    }
  }

  lemma PenetrationsFailingArrayChecks(penetrations: ArrayArg)
    requires ArrayErrors(penetrations, 0.0, 999.99, 2, PenetrationName) != []
    ensures PenetrationErrors(penetrations) == ArrayErrors(penetrations, 0.0, 999.99, 2, PenetrationName)
    ensures PenetrationCap(75.0) !in PenetrationErrors(penetrations)
  {
    if penetrations.Arr? {
      var arrayErrors := ArrayErrors(penetrations, 0.0, 999.99, 2, PenetrationName);
      ElementsErrorsNameTheirElement(penetrations.elems, |penetrations.elems|, 0.0, 999.99, 2, PenetrationName);
      assert forall m <- arrayErrors :: AboutElementBefore(m, PenetrationName, |penetrations.elems|);
    }
  }

  /** The errors of a whole parameter record, in the order the fields are checked. */
  function ParameterErrors(input: ParameterInput): (errors: seq<Message>)
    ensures errors == [] <==>
      BaseDamageErrors(input.baseDamage) == []
      && ModifierErrors(input.damageIncreases, "增加傷害") == []
      && ModifierErrors(Arr([input.baseCritDamage]), "基礎暴擊傷害") == []
      && ModifierErrors(input.critDamageModifiers, "暴擊傷害加成") == []
      && ArmorValueErrors(input.enemyArmor) == []
      && PenetrationErrors(input.armorPenetrations) == []
      && ModifierErrors(input.damageReductions, "傷害減免") == []
      && ModifierErrors(input.damageVulnerabilities, "承受傷害加成") == []
  {
    BaseDamageErrors(input.baseDamage)
    + ModifierErrors(input.damageIncreases, "增加傷害")
    + ModifierErrors(Arr([input.baseCritDamage]), "基礎暴擊傷害")
    + ModifierErrors(input.critDamageModifiers, "暴擊傷害加成")
    + ArmorValueErrors(input.enemyArmor)
    + PenetrationErrors(input.armorPenetrations)
    + ModifierErrors(input.damageReductions, "傷害減免")
    + ModifierErrors(input.damageVulnerabilities, "承受傷害加成")
  }

  method ValidateNumberRange(value: Num, min: real, max: real, parameterName: Label) returns (result: ValidationResult)
    ensures result.errors == RangeErrors(value, min, max, parameterName)
    ensures result.isValid <==> InRange(value, min, max)
    ensures result.parameterName == parameterName && result.value == Scalar(value)
  {
    var errors: seq<Message> := [];
    if !value.Finite? {
      errors := errors + [InvalidNumber(parameterName)];
    } else {
      if Amount(value) < min {
        errors := errors + [BelowMin(parameterName, min)];
      }
      if Amount(value) > max {
        errors := errors + [AboveMax(parameterName, max)];
      }
    }
    result := ValidationResult(|errors| == 0, errors, parameterName, Scalar(value));
  }

  method ValidateNumberFormat(value: Num, precision: nat, parameterName: Label) returns (result: ValidationResult)
    ensures result.errors == FormatErrors(value, precision, parameterName)
    ensures result.isValid <==> PassesFormat(value, precision)
    ensures result.parameterName == parameterName && result.value == Scalar(value)
  {
    var errors: seq<Message> := [];
    if !value.Finite? {
      errors := errors + [InvalidNumber(parameterName)];
    } else {
      var decimalPlaces := GetDecimalPlaces(value.d);
      if decimalPlaces > precision {
        errors := errors + [TooManyPlaces(parameterName, precision)];
      }
    }
    result := ValidationResult(|errors| == 0, errors, parameterName, Scalar(value));
  }

  method ValidateArrayParameter(values: ArrayArg, min: real, max: real, precision: nat, parameterName: string)
    returns (result: ValidationResult)
    ensures result.errors == ArrayErrors(values, min, max, precision, parameterName)
    ensures result.isValid <==>
      values.Arr? && forall j :: 0 <= j < |values.elems| ==> ElementPasses(values.elems[j], min, max, precision)
    ensures result.parameterName == Field(parameterName) && result.value == Vector(values)
  {
    var errors: seq<Message> := [];
    if values.NotArray? {
      errors := errors + [NotAnArray(parameterName)];
      assert errors == [NotAnArray(parameterName)];
      return ValidationResult(false, errors, Field(parameterName), Vector(values));
    }
    var xs := values.elems;
    var index := 0;
    while index < |xs|
      invariant 0 <= index <= |xs|
      invariant errors == ElementsErrors(xs, index, min, max, precision, parameterName)
    {
      var elementName := Element(parameterName, index);
      var rangeResult := ValidateNumberRange(xs[index], min, max, elementName);
      errors := errors + rangeResult.errors;
      var formatResult := ValidateNumberFormat(xs[index], precision, elementName);
      errors := errors + formatResult.errors;
      ElementsErrorsStep(xs, index, min, max, precision, parameterName);
      index := index + 1;
    }
    result := ValidationResult(|errors| == 0, errors, Field(parameterName), Vector(values));
  }

  method ValidateBaseDamage(baseDamage: Option<Num>) returns (result: ValidationResult)
    ensures result.errors == BaseDamageErrors(baseDamage)
    ensures result.isValid <==> result.errors == []
    ensures result.parameterName == Field("baseDamage")
    ensures result.value == if baseDamage.Some? then Scalar(baseDamage.value) else Absent
  {
    var rules := DefaultRules.baseDamage;
    var errors: seq<Message> := [];
    if rules.required && baseDamage.None? {
      errors := errors + [Required];
    }
    var rangeResult := ValidateNumberRange(Given(baseDamage), rules.min, rules.max, Field(BaseDamageName));
    errors := errors + rangeResult.errors;
    var formatResult := ValidateNumberFormat(Given(baseDamage), rules.precision, Field(BaseDamageName));
    errors := errors + formatResult.errors;
    var checked := if baseDamage.Some? then Scalar(baseDamage.value) else Absent;
    result := ValidationResult(|errors| == 0, errors, Field("baseDamage"), checked);
  }

  method ValidatePercentageModifiers(percentageValues: ArrayArg, parameterName: string) returns (result: ValidationResult)
    ensures result.errors == ModifierErrors(percentageValues, parameterName)
    ensures result.isValid <==> result.errors == []
    ensures result.parameterName == Field(parameterName) && result.value == Vector(percentageValues)
  {
    var rules := DefaultRules.damageModifiers;
    result := ValidateArrayParameter(percentageValues, rules.min, rules.max, rules.precision, parameterName);
  }

  method ValidateArmorValue(armorValue: Num) returns (result: ValidationResult)
    ensures result.errors == ArmorValueErrors(armorValue)
    ensures result.isValid <==> result.errors == []
    ensures result.parameterName == Field("enemyArmor") && result.value == Scalar(armorValue)
  {
    var rules := DefaultRules.armor;
    var errors: seq<Message> := [];
    var rangeResult := ValidateNumberRange(armorValue, rules.min, rules.max, Field(ArmorName));
    errors := errors + rangeResult.errors;
    var formatResult := ValidateNumberFormat(armorValue, rules.precision, Field(ArmorName));
    errors := errors + formatResult.errors;
    result := ValidationResult(|errors| == 0, errors, Field("enemyArmor"), Scalar(armorValue));
  }

  method ValidateArmorPenetration(armorPenetrations: ArrayArg) returns (result: ValidationResult)
    ensures result.errors == PenetrationErrors(armorPenetrations)
    ensures result.isValid <==> result.errors == []
    ensures result.parameterName == Field("armorPenetrations") && result.value == Vector(armorPenetrations)
  {
    var rules := DefaultRules.armorPenetration;
    var errors: seq<Message> := [];
    var arrayResult := ValidateArrayParameter(armorPenetrations, rules.min, rules.max, rules.precision, PenetrationName);
    errors := errors + arrayResult.errors;
    if arrayResult.isValid && |armorPenetrations.elems| > 0 {
      if CapExceeded(armorPenetrations.elems, rules.effectiveCap) {
        errors := errors + [PenetrationCap(rules.effectiveCap)];
      }
    }
    result := ValidationResult(|errors| == 0, errors, Field("armorPenetrations"), Vector(armorPenetrations));
  }

  method ValidateDamageParameters(parameters: ParameterInput) returns (result: ValidationResult)
    ensures result.errors == ParameterErrors(parameters)
    ensures result.isValid <==> result.errors == []
    ensures result.parameterName == Field("DamageParameters") && result.value == Absent
  {
    var errors: seq<Message> := [];
    var baseDamageResult := ValidateBaseDamage(parameters.baseDamage);
    errors := errors + baseDamageResult.errors;
    assert errors == BaseDamageErrors(parameters.baseDamage);
    var damageIncreasesResult := ValidatePercentageModifiers(parameters.damageIncreases, "增加傷害");
    errors := errors + damageIncreasesResult.errors;
    var baseCritResult := ValidatePercentageModifiers(Arr([parameters.baseCritDamage]), "基礎暴擊傷害");
    errors := errors + baseCritResult.errors;
    var critModifiersResult := ValidatePercentageModifiers(parameters.critDamageModifiers, "暴擊傷害加成");
    errors := errors + critModifiersResult.errors;
    var armorResult := ValidateArmorValue(parameters.enemyArmor);
    errors := errors + armorResult.errors;
    var penetrationResult := ValidateArmorPenetration(parameters.armorPenetrations);
    errors := errors + penetrationResult.errors;
    var damageReductionsResult := ValidatePercentageModifiers(parameters.damageReductions, "傷害減免");
    errors := errors + damageReductionsResult.errors;
    var vulnerabilitiesResult := ValidatePercentageModifiers(parameters.damageVulnerabilities, "承受傷害加成");
    errors := errors + vulnerabilitiesResult.errors;
    result := ValidationResult(|errors| == 0, errors, Field("DamageParameters"), Absent);
  }
}
