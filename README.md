# Damage calculator, parameter validator and navigation — a Dafny model

This project models the logic core of a game-encyclopedia web site:

- **The damage calculator** (`calculator.dfy`). It turns a set of damage parameters into a final
  damage figure. There are five multiplicative stages: damage increase, critical damage, armor, damage
  reduction and damage vulnerability. Each stage is recorded as an audit step. The result is rounded
  once, to cents, at the end. The armor stage uses a penetration curve `p/(p+100)` capped at 75% and an
  armor curve `e/(e+500)`. Numbers are modelled as `real`.
- **The parameter validator** (`validator.dfy`). It holds the default validation rules. It has the
  range, precision and array checks; per-field validators for base damage, percentage modifiers, armor
  and armor penetration (with the 75% effective-penetration cap); and the aggregate validator that
  concatenates the eight field results.
  - Numbers are `Finite(Decimal) | NaN | PosInf | NegInf`. A finite number carries the decimal that
    JavaScript prints for it, as a mantissa and a scale (`decimals.dfy`).
  - A missing base damage is `None` and is checked like NaN, as the source's checks treat `undefined`
    and `null`.
  - Arrays are `Arr(seq<Num>) | NotArray`.
  - Error messages are a datatype (`Message`). Labels are a field name or an indexed element `name[i]`.
- **Navigation** (`navigation.dfy`, `paths.dfy`). It covers breadcrumb generation from the route path,
  section detection, the sidebar, the active-path test, previous/next links among a section's pages,
  and a case-insensitive pre-order search over the static navigation tables. The route path is a
  parameter. Upper- and lower-casing are function parameters.

Each validator and the calculator are methods that build their results step by step, as the source
does. Each is proved equal to a specification function. Lemmas then characterise that function
exactly: when it is empty, which messages appear and in what order, and monotonicity and saturation of
the armor formula. Selected unit tests are stated as concrete lemmas. Each row below cites the test it restates.

Rounding follows the code: `Math.round(x * 100) / 100` rounds halves toward +∞ (`Round2(-0.005) == 0`).

## Model

| member | source | states |
|---|---|---|
| Calculator.EffectivePenetration | lib/damage-calculator/calculator.ts:15-24 | effective penetration lies in [0, 0.75]; it is 0 for a total ≤ 0, exactly 0.75 from a total of 300 on, and strictly between the two in between |
| Calculator.PenetrationCurveAtCap | lib/damage-calculator/calculator.ts:20-24 | for a positive total, the curve `t/(t+100)` is below the 75% cap exactly when the total is below 300 |
| Calculator.CurveUncappedUpTo300 | lib/damage-calculator/calculator.ts:18-24 | for totals up to 300 the cap never clips: effective penetration is `t/(t+100)` (0 when t ≤ 0) |
| Calculator.CalculateArmorReduction | lib/damage-calculator/calculator.ts:13-35 | the armor reduction is always in [0, 1); it is 0 exactly when enemy armor ≤ 0 and positive otherwise |
| Calculator.UnroundedIsProductOfFactors | lib/damage-calculator/calculator.ts:45-107 | the unrounded damage is base × (1+increase) × (1+crit) × (1−armor) × (1−reduction) × (1+vulnerability) |
| Calculator.UnroundedUnfolds | lib/damage-calculator/calculator.ts:45-107 | the five stages apply in the fixed order increase, crit, armor, reduction, vulnerability, each to the previous stage's output |
| Calculator.TrailEndsAtUnroundedDamage | lib/damage-calculator/calculator.ts:44-107 | in any audit trail of the five stages, the last step's result is the unrounded damage |
| Calculator.Round2 | lib/damage-calculator/calculator.ts:110 | the rounded value is a whole number of cents within half a cent of the input, halves going up |
| Calculator.Round2Unique | lib/damage-calculator/calculator.ts:110 | any whole number of cents within [x − 0.005, x + 0.005) is the rounding of x, so the rounding is determined by that property |
| Calculator.Calculate | lib/damage-calculator/calculator.ts:42-114 | the result is valid with no errors; its steps are exactly five, named 增加傷害, 暴擊傷害, 護甲減免, 傷害減免, 承受傷害加成 in order; step 0 starts from the base damage, each later step starts from the previous result, and each records its rate and the stage's output; the final damage is the last step's unrounded result rounded once to cents; each step carries its stage's fixed description |
| CalculatorProperties.EffectivePenetrationMonotone | lib/damage-calculator/calculator.ts:15-24 | more total penetration never lowers effective penetration |
| CalculatorProperties.ArmorCurveNonIncreasingInIgnored | lib/damage-calculator/calculator.ts:27-34 | for non-negative armor, ignoring a larger fraction of it never raises the reduction |
| CalculatorProperties.ArmorCurveNonDecreasingInArmor | lib/damage-calculator/calculator.ts:27-34 | at a fixed ignored fraction, more armor never lowers the reduction |
| CalculatorProperties.ReductionNonIncreasingInPenetration | lib/damage-calculator/calculator.ts:15-34 | for fixed armor ≥ 0, a larger penetration total never increases the armor reduction |
| CalculatorProperties.ReductionNonDecreasingInArmor | lib/damage-calculator/calculator.ts:15-34 | for a fixed penetration total, more armor never decreases the armor reduction |
| CalculatorProperties.PenetrationSaturatesAt300 | lib/damage-calculator/calculator.ts:15-24 | every penetration total ≥ 300 gives the same reduction as a total of exactly 300 |
| CalculatorProperties.NeutralModifiersKeepBaseDamage | lib/damage-calculator/calculator.ts:45-110 | with all modifiers zero, crit 0 and armor ≤ 0, the unrounded damage is the base damage and the final damage is its rounding |
| CalculatorProperties.Round2KeepsCents | lib/damage-calculator/calculator.ts:110 | a value already in whole cents is unchanged by rounding |
| CalculatorProperties.Round2HalvesGoUp | lib/damage-calculator/calculator.ts:110 | 0.005 rounds up to 0.01 and −0.005 rounds up to 0 (toward +∞, not away from zero) |
| CalculatorProperties.ArmorReductionExamples | tests/calculator.test.ts:108-181 | armor 600 gives 6/11; with penetration 100 gives 0.375; armor 1000 with [300,300,300] is capped and gives 1/3; armor 0 with [50] gives 0 |
| CalculatorProperties.FirstWorkedExample | tests/calculator.test.ts:12-29 | the first worked scenario's final damage is 957.27 |
| CalculatorProperties.SecondWorkedExample | tests/calculator.test.ts:32-49 | the same scenario with penetration [100] gives 1316.25 |
| CalculatorProperties.NegativeReductionExample | tests/calculator.test.ts:239-255 | a reduction of −20% raises 1000 to 1200 |
| CalculatorProperties.CappedPenetrationExample | tests/calculator.test.ts:438-458 | armor 1200 with penetrations totalling 900 is capped at 75% and gives 625 |
| CalculatorProperties.RoundingOnceExample | tests/calculator.test.ts:318-335 | 33.336% on 1000 gives 1333.36: no intermediate step is rounded |
| CalculatorProperties.ExactCentsExample | tests/calculator.test.ts:299-316 | 33.333% on 1000 gives 1333.33 |
| CalculatorProperties.AccumulatedPenetrationExample | tests/calculator.test.ts:416-436 | armor 800 with penetrations [50,75,25] gives 609.76 |
| CalculatorProperties.SummedModifiersExample | tests/calculator.test.ts:70-86 | increases [20,30,10] give 1600 and reductions [10,20,15] give 550 (the lists are summed, not compounded) |
| CalculatorProperties.CritSumExample | tests/calculator.test.ts:88-104 | base crit 50 with modifiers [20,30] doubles 1000 to 2000 |
| CalculatorProperties.HugeArmorRoundsToZero | tests/calculator.test.ts:257-275 | armor 9999999999 leaves less than half a cent, which rounds to 0 |
| CalculatorProperties.HugeModifiersExample | tests/calculator.test.ts:277-295 | 9999% on every modifier takes 100 damage past two hundred million |
| CalculatorProperties.ComplexPrecisionExample | tests/calculator.test.ts:337-356 | the all-fields scenario on 333.33 comes to 533.4963… over exact reals and is shown as 533.5, within the test's tolerance and between 500 and 600 |
| CalculatorProperties.SummedVulnerabilitiesExample | tests/calculator.test.ts:378-394 | vulnerabilities [25, 30, 20] add up to +75%: 1000 becomes 1750 |
| CalculatorProperties.ReductionThenVulnerabilityExample | tests/calculator.test.ts:396-412 | −30% and then +50% multiply: 1000 becomes 1050 |
| Arithmetic.SumNonNegative | lib/damage-calculator/validator.ts:263 | a list of non-negative numbers has a non-negative sum |
| Arithmetic.SumOfZeros | lib/damage-calculator/calculator.ts:48 | a list of zeros sums to 0 |
| Decimals.Reduce | lib/damage-calculator/validator.ts:42-44 | the shortest form of a decimal (the one JavaScript prints) has the same value, no trailing zero and no larger scale |
| Decimals.ScaleUp | lib/damage-calculator/validator.ts:39-51 | a decimal written with s places has at most k places for every k ≥ s |
| Decimals.ReducedNeedsFullScale | lib/damage-calculator/validator.ts:39-51 | a decimal in shortest form with s places does not have at most k places for any k < s |
| Decimals.PlacesAreLeast | lib/damage-calculator/validator.ts:39-51 | a value has at most k decimal places (value × 10^k is whole) exactly when its exact place count is ≤ k |
| Decimals.GetDecimalPlacesAgainstExact | lib/damage-calculator/validator.ts:39-51 | `getDecimalPlaces` equals the exact place count unless the number prints in exponent form, where it is at least 7 and at most the exact count |
| Decimals.PrecisionCheckIsExact | lib/damage-calculator/validator.ts:106-107 | for precisions up to 6, the source's "more places than allowed" test holds exactly when the value does not have that many places |
| Decimals.NoPlacesExactlyWhenWhole | lib/damage-calculator/validator.ts:39-51 | the source's place count is 0 exactly for whole numbers |
| Decimals.ExponentFormCountsExponentOnly | lib/damage-calculator/validator.ts:45-47 | 1.5e-7 counts 7 places although it has 8 |
| Validator.GetDefaultRules | lib/damage-calculator/validator.ts:9-32 | the default rules make base damage required, with positive, ordered bounds; armor has a non-negative range and precision 0; the penetration cap is a percentage strictly between 0 and 100 |
| Validator.Amounts | lib/damage-calculator/validator.ts:263 | the values of a list of finite numbers, element by element |
| Validator.RangeErrors | lib/damage-calculator/validator.ts:69-78 | no errors exactly when the value is finite and within the inclusive bounds; a non-finite value yields exactly one invalid-number error; a finite one never gets an invalid-number error, gets a below-min error iff v < min and an above-max error iff v > max, and no other message; every message names the checked label |
| Validator.FormatErrors | lib/damage-calculator/validator.ts:102-110 | no errors exactly when the value is finite with at most `precision` places as counted by the source; a non-finite value yields one invalid-number error, a finite failing one exactly one too-many-places error; every message names the checked label |
| Validator.FormatErrorsExact | lib/damage-calculator/validator.ts:102-110 | for precisions up to 6, a finite value passes the format check exactly when value × 10^precision is whole (so every whole number passes) |
| Validator.ElementsErrors | lib/damage-calculator/validator.ts:149-157 | the errors of the first n elements are empty exactly when each of them passes both the range and the format check |
| Validator.ElementsErrorsNameTheirElement | lib/damage-calculator/validator.ts:151-156 | every message about the first n elements names one of those elements by its index |
| Validator.ArrayErrors | lib/damage-calculator/validator.ts:138-157 | a non-array yields exactly one not-an-array error; an array (including the empty one) yields none exactly when every element passes |
| Validator.ArrayErrorsExact | lib/damage-calculator/validator.ts:138-157 | for precisions up to 6, the array check passes exactly when it is an array whose elements are all finite, within range and with at most `precision` places |
| Validator.BaseDamageErrors | lib/damage-calculator/validator.ts:172-195 | a missing base damage reports "required" and then invalid-number twice; a non-finite one reports invalid-number twice (once from the range check, once from the format check) |
| Validator.BaseDamageErrorsExact | lib/damage-calculator/validator.ts:172-195 | base damage passes exactly when it is present, finite, in [0.01, 9999999999] and has at most 2 places |
| Validator.ModifierErrors | lib/damage-calculator/validator.ts:203-215 | a non-array modifier list yields exactly one not-an-array error |
| Validator.ModifierErrorsExact | lib/damage-calculator/validator.ts:203-215 | a modifier list passes exactly when it is an array of finite values within [−99, 9999] with at most 2 places |
| Validator.ArmorValueErrors | lib/damage-calculator/validator.ts:222-240 | a non-finite armor value reports invalid-number twice |
| Validator.ArmorValueErrorsExact | lib/damage-calculator/validator.ts:222-240 | armor passes exactly when it is finite, in [0, 9999999999] and whole |
| Validator.CapExceededIff | lib/damage-calculator/validator.ts:264-266 | for a non-negative total, `total/(total+100) > 0.75` holds exactly when the total exceeds 300 |
| Validator.PenetrationErrors | lib/damage-calculator/validator.ts:247-277 | a non-array penetration list yields exactly one not-an-array error |
| Validator.PenetrationErrorsExact | lib/damage-calculator/validator.ts:247-277 | penetrations pass exactly when they form an array of admissible values totalling at most 300; the cap message appears exactly when they are all admissible but total more than 300 (an empty list never triggers it) |
| Validator.PenetrationsPassingArrayChecks | lib/damage-calculator/validator.ts:262-268 | once the element checks pass, the list passes iff its total is ≤ 300 and carries the cap error iff the total is > 300 |
| Validator.PenetrationsFailingArrayChecks | lib/damage-calculator/validator.ts:262 | once an element check fails, the errors are exactly the element errors and the cap is not checked |
| Validator.ParameterErrors | lib/damage-calculator/validator.ts:284-333 | all parameters pass exactly when each of the eight field checks passes: base damage, increases, `[baseCritDamage]`, crit modifiers, armor, penetrations, reductions, vulnerabilities |
| Validator.ValidateNumberRange | lib/damage-calculator/validator.ts:61-86 | the errors are those of the range check; the result is valid exactly when the value is finite and within bounds; name and value are passed through |
| Validator.ValidateNumberFormat | lib/damage-calculator/validator.ts:95-118 | the errors are those of the format check; the result is valid exactly when the value is finite and within precision |
| Validator.ValidateArrayParameter | lib/damage-calculator/validator.ts:129-165 | the loop over the elements accumulates exactly the array check's errors in index order; the result is valid exactly when it is an array all of whose elements pass |
| Validator.ValidateBaseDamage | lib/damage-calculator/validator.ts:172-195 | the errors are the base-damage errors; valid exactly when there are none; reported under `baseDamage` with the value passed through |
| Validator.ValidatePercentageModifiers | lib/damage-calculator/validator.ts:203-215 | the errors are the modifier errors; valid exactly when there are none |
| Validator.ValidateArmorValue | lib/damage-calculator/validator.ts:222-240 | the errors are the armor errors; valid exactly when there are none; reported under `enemyArmor` |
| Validator.ValidateArmorPenetration | lib/damage-calculator/validator.ts:247-277 | the errors are the penetration errors, the cap message after the element errors; valid exactly when there are none |
| Validator.ValidateDamageParameters | lib/damage-calculator/validator.ts:284-333 | the errors are the eight field results concatenated in the fixed order without short-circuiting; valid exactly when there are none; reported under `DamageParameters` with no value |
| ValidatorProperties.ValidatedPenetrationIsNotClamped | lib/damage-calculator/validator.ts:262-268 | penetrations accepted by the validator total between 0 and 300, so the calculator's 75% clamp never changes them |
| ValidatorProperties.PenetrationsAtTheCapPass | tests/validator.test.ts:404-420 | [300] (exactly 75%) and [150, 150] pass |
| ValidatorProperties.PenetrationsOverTheCapFail | tests/validator.test.ts:117-122 | [300, 300, 300] fails with the cap message only |
| ValidatorProperties.LargestPenetrationHitsCap | tests/validator.test.ts:404-420 | [999.99] passes the element checks and fails the cap |
| ValidatorProperties.PenetrationOutOfRangeSkipsCap | tests/validator.test.ts:111-115 | [1000] reports only that element 0 is above 999.99 |
| ValidatorProperties.PenetrationsOf400Fail | tests/validator.test.ts:529-560 | [100, 100, 100, 100] and [200, 200] total 400, an effective 80%, and fail with the cap message only |
| ValidatorProperties.DefaultRuleValues | tests/validator.test.ts:162-185 | the default rules are base damage [0.01, 9999999999], required, 2 places; modifiers [−99, 9999], 2 places; armor [0, 9999999999], 0 places; penetration [0, 999.99], 2 places, cap 75 |
| ValidatorProperties.RecordErrorsOfFailingFields | lib/damage-calculator/validator.ts:284-333 | when only base damage, increases, armor and penetrations fail, the record's errors are theirs, concatenated in that order; passing fields add nothing |
| ValidatorProperties.MixedIncreasesErrors | tests/validator.test.ts:505-527 | the increases [30, −100, 20.555] report element 1 below −99 and then element 2 over two places |
| ValidatorProperties.FractionalArmorErrors | tests/validator.test.ts:505-527 | armor 600.5 reports only that no decimal places are allowed |
| ValidatorProperties.PenetrationAboveMaxErrors | tests/validator.test.ts:505-527 | penetrations [50, 1000] report only element 1 above 999.99; the cap is not checked |
| ValidatorProperties.MixedRecordCollectsEveryError | tests/validator.test.ts:505-527 | the mixed record reports exactly the base damage's two errors, then 增加傷害[1] below −99 and 增加傷害[2] over two places, then armor over 0 places, then 穿甲效果[1] above 999.99: no field stops the others |
| ValidatorProperties.InvalidRecordReportsSeveral | tests/validator.test.ts:143-158 | a record failing in several fields reports more than one error, including both of the base damage |
| ValidatorProperties.TinyBaseDamageReportsBoth | tests/validator.test.ts:423-440 | 0.005 as base damage reports below-min and then too-many-places |
| ValidatorProperties.TwoPlaceCheck | lib/damage-calculator/validator.ts:102-110 | 12.34 passes a two-place check and 12.345 fails it with one message |
| ValidatorProperties.ArmorValueExamples | tests/validator.test.ts:90-101 | armor 600 passes and −100 is reported as below the minimum of 0 |
| ValidatorProperties.ArmorPrecisionExamples | tests/validator.test.ts:485-502 | armor 600 passes, while 600.5 and 600.05 report that no decimal places are allowed |
| Paths.Split | composables/useNavigation.ts:99 | splitting on `/` yields at least one part and no part contains `/` |
| Paths.JoinSplit | composables/useNavigation.ts:99 | joining the parts of a split with `/` gives back the original string |
| Paths.SplitAround | composables/useNavigation.ts:99 | splitting `a/b` gives the parts of a followed by the parts of b |
| Paths.NonEmpty | composables/useNavigation.ts:99 | every part kept is a non-empty part of the input, and there are never more kept parts than given ones |
| Paths.NonEmptyMembers | composables/useNavigation.ts:99 | a part is kept exactly when it is a non-empty part of the input |
| Paths.NonEmptyAppend | composables/useNavigation.ts:99 | dropping empty parts distributes over concatenation |
| Paths.NonEmptyKeepsOrder | composables/useNavigation.ts:99 | parts that are all non-empty come out unchanged and in order; with the distribution over concatenation this fixes the order of the kept parts |
| Paths.Segments | composables/useNavigation.ts:99 | the segments of a route path are non-empty and contain no `/` |
| Paths.PathOf | composables/useNavigation.ts:110-112 | the accumulated path is empty exactly when there are no segments |
| Paths.SplitOfSegment | composables/useNavigation.ts:99 | a string without `/` splits into itself |
| Paths.SegmentsOfPathOf | composables/useNavigation.ts:99-112 | re-splitting an accumulated path gives back exactly its segments |
| Paths.ExtraSeparatorsIgnored | composables/useNavigation.ts:99 | a trailing slash and a doubled slash do not change the segments |
| Paths.PathOfPrefix | composables/useNavigation.ts:110-112 | each accumulated path is a prefix of the full one |
| Navigation.Crumbs | composables/useNavigation.ts:111-137 | one crumb per segment processed, the k-th built from segment k |
| Navigation.Breadcrumbs | composables/useNavigation.ts:98-140 | one crumb more than there are segments; the first is the home page at `/`; exactly the last crumb is the current page (home when there are no segments) |
| Navigation.CapitalizeChangesFirstOnly | composables/useNavigation.ts:115 | capitalising a segment keeps everything after its first character, and leaves a segment that already starts upper case unchanged |
| Navigation.GenerateBreadcrumbs | composables/useNavigation.ts:98-140 | the loop over the segments produces exactly the breadcrumb list |
| Navigation.BreadcrumbPaths | composables/useNavigation.ts:110-112 | crumb k's path is `/seg1/…/segk`, and its own segments are exactly the first k segments of the route |
| Navigation.BreadcrumbPathsExtend | composables/useNavigation.ts:110-112 | the first non-home crumb's path is `/` plus the first segment, and each later crumb's path extends the previous one by `/` and its segment |
| Navigation.DamagePageBreadcrumbs | composables/useNavigation.ts:98-140 | `/encyclopedia/damage` reads 首頁 › Encyclopedia › 傷害計算, the last crumb current: listed paths take their table titles |
| Navigation.UnlistedPageBreadcrumbs | composables/useNavigation.ts:98-140 | `/wiki/notes` reads 首頁 › Wiki › the capitalised `notes`, the last crumb current: an unlisted path is titled by its capitalised segment |
| Navigation.CrumbPathStep | composables/useNavigation.ts:112 | crumb k + 1's path is crumb k's path plus `/` and segment k |
| Navigation.GetCurrentNavigationContext | composables/useNavigation.ts:145-167 | the section is the encyclopedia exactly when the path starts with `/encyclopedia`, the wiki exactly when it does not but starts with `/wiki`, and home otherwise; the encyclopedia comes with the encyclopedia entry and the wiki with the wiki entry, home with none; the entry's path prefixes the route and its title is the section title |
| Navigation.GetSidebarNavigation | composables/useNavigation.ts:172-175 | the sidebar lists exactly the encyclopedia pages on an encyclopedia route, exactly the wiki pages on a wiki route, and nothing on the home section; every item lies under the section's path |
| Navigation.BreadcrumbsAreActive | composables/useNavigation.ts:180-185 | on every route that begins with the path its segments spell (`/`, routes without extra separators, and routes with a trailing `/`), the home crumb is active exactly when the route is `/`, and every other crumb is active |
| Navigation.TrailingSeparatorRouteQualifies | composables/useNavigation.ts:98-100 | adding a trailing `/` to a route that meets that condition keeps it met |
| Navigation.DoubledSeparatorRouteFails | composables/useNavigation.ts:98-100 | a route `/a//b` with a doubled separator never meets it: its segments spell `/a/b`, which it does not begin with |
| Navigation.SectionEntriesActive | composables/useNavigation.ts:180-185 | the encyclopedia entry is highlighted exactly on encyclopedia routes; the wiki entry is highlighted on every wiki route and never on a home route; the home entry is highlighted only on a home route |
| Navigation.FindIndex | composables/useNavigation.ts:199 | the result is −1 exactly when no item has the path; otherwise it is the first index whose item has it |
| Navigation.GetPreviousNextNavigation | composables/useNavigation.ts:190-209 | outside a section, or when the route is not one of the section's pages, both links are absent; a present previous (next) link is the page just before (after) the route's page |
| Navigation.NeighboursOfPage | composables/useNavigation.ts:199-208 | on the k-th page of a section, previous is page k − 1 (absent at k = 0) and next is page k + 1 (absent on the last page) |
| Navigation.NextThenPrevious | composables/useNavigation.ts:190-209 | following next and then previous returns to the starting page |
| Navigation.FoundAtOwnIndex | composables/useNavigation.ts:199 | among items with distinct paths, each item is found at its own index |
| Navigation.EncyclopediaPathsDistinct | composables/useNavigation.ts:29-61 | the encyclopedia's pages have pairwise different paths |
| Navigation.SectionEnds | composables/useNavigation.ts:206-207 | the first encyclopedia page has no previous page and the last has no next page |
| Navigation.NoNeighbours | composables/useNavigation.ts:194-203 | the home page, the encyclopedia root and the wiki's only page have neither link |
| Navigation.Matching | composables/useNavigation.ts:219-224 | there are never more found items than given ones (which items are found is stated by `MatchingMembers`) |
| Navigation.PreOrderAppend | composables/useNavigation.ts:217-229 | the pre-order of a concatenation is the concatenation of the pre-orders |
| Navigation.MatchingAppend | composables/useNavigation.ts:217-229 | filtering distributes over concatenation, so order is preserved |
| Navigation.MatchingMembers | composables/useNavigation.ts:219-224 | an item is found exactly when it is among the items and its title or description contains the query, compared in lower case |
| Navigation.VisitStep | composables/useNavigation.ts:218-229 | visiting one more item adds that item if it matches, then the matches among its descendants |
| Navigation.SearchInItems | composables/useNavigation.ts:217-230 | the recursive walk appends to the shared results exactly the matching items of the subtree, in pre-order (parent before children) |
| Navigation.SearchNavigation | composables/useNavigation.ts:214-234 | the search returns exactly the matching items of the whole navigation tree in pre-order |
| Navigation.MainNavigationPreOrder | composables/useNavigation.ts:29-93 | the pre-order of the navigation tree is home, the encyclopedia root and its pages, then the wiki root and its page |

## Left out

- The `formula` text of each audit step (built with `toFixed(2)` in `lib/damage-calculator/calculator.ts`) is not modelled. The `description` is a fixed string per stage; it is kept, and `Calculator.AuditTrail` states it for each step.
- The `catch` branch of `calculate` (lib/damage-calculator/calculator.ts:115-122) is unreachable over real numbers. `Calculator.Calculate` always returns the normal result.
- IEEE-754 floating point is not modelled. The calculator works over exact reals, so rounding drift in the sums, float non-associativity and the test tolerances (`toBeCloseTo`) are outside the model. The worked examples are exact over reals.
- Decimals.GetDecimalPlaces: a number JavaScript prints in exponent form (below 1e-6) is modelled as written, counting only the exponent. It therefore undercounts (1.5e-7 counts 7 places, not 8). `Decimals.PrecisionCheckIsExact` shows this never changes a check with precision ≤ 6, which covers every rule in use.
- Numbers of 1e21 and above, which JavaScript prints as `1e+21`, are not distinguished. They are whole, so they count 0 places in the source and in the model alike.
- Error message text is modelled as a `Message` datatype (invalid number, below min, above max, too many places, not an array, required, penetration cap), with the bound or precision as data, not as the rendered string.
- `Validator.GetDefaultRules` returns the rules as a value. The shallow copy `{ ...DEFAULT_RULES }` (sharing nested objects) has no counterpart.
- The whole-record check in `validateDamageParameters` returns no `value`; the model records `Absent`.
- `Validator.ModifierErrors`, `Validator.PenetrationErrors`, `Validator.ArmorValueErrors` and `Validator.BaseDamageErrors` state only the non-array or non-finite cases in their own contracts. The exact pass/fail characterisation is in the matching `…Exact` lemma.
- `useRoute()` and the Vue composable wrapper are replaced by a `routePath` parameter. The reactive route is not modelled.
- Unicode case mapping (`toUpperCase`, `toLowerCase`) is an uninterpreted function parameter.
- Navigation items without `children` are modelled with an empty child list. The source's `children || []` and `if (item.children)` treat the two alike.
- The search's shared `results` array is modelled as a sequence threaded through the recursive walk.
- composables/useContent.ts is not part of this model: its functions are network fetches with logging fallbacks.
- The type-only modules (lib/damage-calculator/types.ts and the navigation interfaces) are lifted as datatypes; they have no behaviour of their own.
