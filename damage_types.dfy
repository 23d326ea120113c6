/**
 * The records exchanged by the damage calculator and its validator.
 *
 * Calculator inputs are real numbers. Validator inputs keep the cases a
 * JavaScript caller can actually pass: non-finite numbers, a value that is
 * not an array, and a missing base damage. Error messages are values of
 * `Message` rather than rendered text.
 */
module DamageTypes {
  import opened Optional
  import opened Decimals

  /** The parameter record of one damage calculation; each array is a list of percentages. */
  datatype DamageParameters = DamageParameters(
    baseDamage: real,
    damageIncreases: seq<real>,
    baseCritDamage: real,
    critDamageModifiers: seq<real>,
    enemyArmor: real,
    armorPenetrations: seq<real>,
    damageReductions: seq<real>,
    damageVulnerabilities: seq<real>)

  /** One audited stage: what it consumed and what it produced (the rendered formula is not kept). */
  datatype DamageCalculationStep = DamageCalculationStep(
    stepName: string,
    inputValues: seq<real>,
    result: real,
    description: string)

  datatype DamageCalculationResult = DamageCalculationResult(
    finalDamage: real,
    steps: seq<DamageCalculationStep>,
    isValid: bool,
    errors: seq<string>)

  /** A JavaScript number as the validator sees it. */
  datatype Num = Finite(d: Decimal) | NaN | PosInf | NegInf

  /** An argument that should be an array of numbers but may be anything else. */
  datatype ArrayArg = Arr(elems: seq<Num>) | NotArray

  /** A parameter record as it reaches the validator, before anything is checked. */
  datatype ParameterInput = ParameterInput(
    baseDamage: Option<Num>,
    damageIncreases: ArrayArg,
    baseCritDamage: Num,
    critDamageModifiers: ArrayArg,
    enemyArmor: Num,
    armorPenetrations: ArrayArg,
    damageReductions: ArrayArg,
    damageVulnerabilities: ArrayArg)

  /** The name a message speaks about: a parameter, or element `index` of an array parameter (`name[index]`). */
  datatype Label = Field(name: string) | Element(name: string, index: nat)

  /** The validator's messages, one constructor per message template. */
  datatype Message =
    | InvalidNumber(subject: Label)                 // the value is not a finite number
    | BelowMin(subject: Label, min: real)           // the value is below `min`
    | AboveMax(subject: Label, max: real)           // the value is above `max`
    | TooManyPlaces(subject: Label, precision: nat) // more than `precision` decimal places
    | NotAnArray(name: string)                      // the parameter is not an array
    | Required                                      // the base damage is missing
    | PenetrationCap(cap: real)                     // the effective penetration exceeds `cap` percent

  /** The value a validation result reports it checked. */
  datatype Checked = Scalar(n: Num) | Vector(a: ArrayArg) | Absent

  datatype ValidationResult = ValidationResult(
    isValid: bool,
    errors: seq<Message>,
    parameterName: Label,
    value: Checked)

  datatype BaseDamageRule = BaseDamageRule(min: real, max: real, required: bool, precision: nat)
  datatype NumberRule = NumberRule(min: real, max: real, precision: nat)
  datatype PenetrationRule = PenetrationRule(min: real, max: real, precision: nat, effectiveCap: real)

  datatype ValidationRules = ValidationRules(
    baseDamage: BaseDamageRule,
    damageModifiers: NumberRule,
    armor: NumberRule,
    armorPenetration: PenetrationRule)
}
