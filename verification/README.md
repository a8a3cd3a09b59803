# Material calculator, order cost and form validators — a Dafny model

This project models the four pieces of pure logic in a partner-request
management application (a desktop CRUD front end over a MySQL catalogue):

- **The material requirement calculator** (`MaterialCalculator`). It takes a product type, a material type, a required and a stock
  quantity of product, and two shape parameters. It returns the whole amount
  of material to order, or `-1` when an input is rejected. The shortfall is
  `max(0, required − stock)`. The amount is
  `param1 · param2 · coefficient · shortfall / (1 − defect rate)`, rounded up.
  There are three copies in the source:
  - the Decimal version in `utils/material_calculator.py`. It looks both factors up in the database. Here it is the generic calculator, with the two lookups passed in as `map<int, real>`;
  - the float version in `material_calculator_method.py`, with two fixed five-entry tables (`MaterialMethod`). It is proved to be the generic calculator applied to those tables;
  - the standalone copy in `tests/test_material_calculator_standalone.py` (`StandaloneCalculator`). It checks the type ids before the quantities. It is proved to agree with the float version on every input.
- **The order cost** of `utils/calculations.py` (`Calculations`). It sums quantity × price over the line items, quantizes the sum to cents with halves rounded away from zero, and clamps it at zero.
- **The four form validators** of `utils/validators.py` (`Validators`): email, phone, INN (the ten-digit Russian taxpayer number) and rating. Each one is written as a recogniser that follows the source. Each is proved equal to a declarative description of the strings it accepts.

The rounding modes live in `Rounding`:
- `Ceil` is Python's `math.ceil`;
- `RoundUp` is Decimal's `ROUND_UP`, which rounds the magnitude up and keeps the sign;
- `RoundHalfUp` is Decimal's `ROUND_HALF_UP`.

`Wrappers` holds the `Option` type.

## Model

| member | source | states |
|---|---|---|
| Rounding.Ceil | material_calculator_method.py:80-81 | the ceiling is the least integer not below its argument: `x <= n < x + 1` |
| Rounding.RoundUp | utils/material_calculator.py:67 | ROUND_UP to a whole number: a non-negative value is rounded up to the next integer; a negative value is rounded down in value, so its magnitude is rounded up |
| Rounding.RoundHalfUp | utils/calculations.py:27 | ROUND_HALF_UP: the nearest integer; an exact half goes away from zero |
| Rounding.RoundUpIsCeilOnNonNegatives | utils/material_calculator.py:67 | on non-negative values ROUND_UP to a whole number equals the ceiling, so the Decimal and float copies round alike |
| Rounding.CeilMonotone | material_calculator_method.py:81 | the ceiling never decreases as its argument grows |
| MaterialCalculator.Shortfall | utils/material_calculator.py:49 | the shortfall is zero exactly when stock covers demand, and otherwise stock plus shortfall equals demand |
| MaterialCalculator.Calculate | utils/material_calculator.py:26-73 | a negative quantity, a non-positive parameter, a missing product type or a missing material type each give -1. Zero shortfall gives 0. A defect rate of exactly 1 gives -1 (the division error is caught). Otherwise the result is the exact quotient rounded away from zero: `exact <= r < exact + 1` for a non-negative quotient, `exact - 1 < r <= exact` for a negative one |
| MaterialCalculator.ExactAmount | utils/material_calculator.py:55-64 | the defect-inflated amount is the one that, after losing its defect fraction, leaves exactly parameter1 × parameter2 × coefficient × shortfall |
| MaterialCalculator.CalculateMaterialAmount | utils/material_calculator.py:76-88 | the module-level wrapper returns exactly what the class method returns |
| MaterialCalculator.DivideByPositive | utils/material_calculator.py:64 | dividing by a positive divisor keeps a positive dividend positive and keeps dividends in order |
| MaterialCalculator.ExactAmountPositive | utils/material_calculator.py:55-64 | positive parameters, a positive coefficient, a positive shortfall and a defect rate in [0, 1) give a positive exact amount |
| MaterialCalculator.ExactAmountMonotone | utils/material_calculator.py:57-64 | a larger shortfall never needs less exact material |
| MaterialCalculator.RejectedOnlyOnFailedCheck | utils/material_calculator.py:28-69 | with positive coefficients and defect rates in [0, 1), the result is -1 if and only if one of the input checks fails. Every other result is at least 0, and at least 1 when there is a shortfall |
| MaterialCalculator.StockOnlyThroughShortfall | utils/material_calculator.py:49-60 | two stock levels with the same shortfall give the same result |
| MaterialCalculator.MonotoneInRequired | utils/material_calculator.py:49-67 | with well-formed reference data, raising the required quantity never lowers the result |
| MaterialMethod.ProductCoefficients | material_calculator_method.py:37-43 | the coefficient table covers product types 1 to 5, and every coefficient is positive |
| MaterialMethod.MaterialDefects | material_calculator_method.py:46-52 | the defect table covers material types 1 to 5, and every rate lies in [0, 1), so `1 − defect` is never zero |
| MaterialMethod.TablesWellFormed | material_calculator_method.py:37-52 | the fixed tables meet the generic calculator's well-formedness condition |
| MaterialMethod.CalculateMaterialAmount | material_calculator_method.py:30-83 | a negative quantity, a non-positive parameter, or a type id outside 1 to 5 gives -1, and -1 occurs only then. Zero shortfall gives 0. Otherwise the result is the ceiling of the exact quotient and is at least 1 |
| MaterialMethod.IsInstanceOfCalculator | material_calculator_method.py:30-83 | the float file computes what the Decimal calculator computes when its lookups are the two fixed tables |
| StandaloneCalculator.SameTablesAsMethod | tests/test_material_calculator_standalone.py:7-8 | the standalone tables equal the method file's tables |
| StandaloneCalculator.CalculateMaterialAmount | tests/test_material_calculator_standalone.py:3-30 | an unknown type id, a negative quantity or a non-positive parameter gives -1; zero shortfall gives 0; otherwise the result is the exact quotient rounded up, `exact <= r < exact + 1` |
| StandaloneCalculator.AgreesWithMethod | tests/test_material_calculator_standalone.py:11-30 | despite the different check order, the standalone copy returns the same value as the method file on every input |
| StandaloneCalculator.ValidCalculationExample | tests/test_material_calculator_standalone.py:33-36 | `(1, 1, 100, 20, 2.5, 3.0)` gives 902 |
| StandaloneCalculator.InvalidTypeExample | tests/test_material_calculator_standalone.py:38-41 | product type 999 gives -1 |
| Calculations.Finalize | utils/calculations.py:27-31 | the final cost is never negative and is a whole number of cents. For a non-negative sum it lies within half a cent of the sum, with an exact half rounded up. A negative sum gives 0 |
| Calculations.CalculateOrderCost | utils/calculations.py:16-33 | the loop's total is the sum of quantity × price over all items. The returned cost is that sum finalised: non-negative, whole cents, within half a cent of a non-negative sum, and 0 for a negative sum |
| Calculations.SubtotalAppend | utils/calculations.py:18-24 | the sum over a concatenation is the sum of the two sums |
| Calculations.SubtotalPermutation | utils/calculations.py:18-24 | reordering the items leaves the sum unchanged |
| Calculations.OrderCostPermutation | utils/calculations.py:16-31 | reordering the items leaves the order cost unchanged |
| Calculations.TwoItemExample | tests/test_calculations.py:5-12 | 10 × 100.50 + 5 × 200.00 costs 2005.00 |
| Calculations.EmptyExample | tests/test_calculations.py:14-18 | an empty list costs 0.00 |
| Validators.AllDigits | utils/validators.py:24 | the recursive scan holds exactly when every character is a digit |
| Validators.Digits | utils/validators.py:18 | the filtered string consists of digits only and is no longer than the input. An all-digit input is kept whole |
| Validators.DigitsCountsPositions | utils/validators.py:18-19 | the filtered string has one character per digit position of the input |
| Validators.DigitsAppend | utils/validators.py:18 | filtering a concatenation concatenates the filtered parts |
| Validators.ValidatePhone | utils/validators.py:15-19 | a phone is accepted if and only if at least ten of its positions hold digits |
| Validators.PhoneIgnoresNonDigits | utils/validators.py:18-19 | inserting a non-digit character anywhere never changes the phone verdict |
| Validators.ValidateInn | utils/validators.py:22-24 | an INN is accepted if and only if it has exactly ten characters and all of them are digits |
| Validators.InnPassesPhone | utils/validators.py:18-24 | every accepted INN also passes the phone check |
| Validators.ParseInt | utils/validators.py:30 | `int()` succeeds exactly on an optional '+' or '-' followed by at least one digit; an unsigned or '+' numeral gives a value of at least 0, a '-' numeral a value of at most 0 |
| Validators.DecimalValueZero | utils/validators.py:30-31 | a digit string denotes zero if and only if all its digits are '0' |
| Validators.ParsesNonNegative | utils/validators.py:30-31 | parsing succeeds with a non-negative value if and only if the string is unsigned digits, '+' and digits, or '-' followed only by zeros |
| Validators.ValidateRating | utils/validators.py:27-33 | a rating is accepted if and only if it is a numeral of non-negative value (see the line above) |
| Validators.FirstIndex | utils/validators.py:11-12 | the search finds the first occurrence of the character, or reports that the character does not occur |
| Validators.LastIndex | utils/validators.py:11-12 | the search finds the last occurrence of the character, or reports that the character does not occur |
| Validators.ValidateEmail | utils/validators.py:9-12 | an accepted address contains exactly one '@' |
| Validators.EmailCharacterisation | utils/validators.py:11-12 | the scanner accepts a string if and only if it matches `^[a-zA-Z0-9._%+-]+@[a-zA-Z0-9.-]+\.[a-zA-Z]{2,}$`: a non-empty local part, an '@', a non-empty domain head, a '.', and at least two letters |
| Validators.EmailExamples | tests/test_validators.py:5-11 | "test@example.com" is accepted; "test" is rejected |
| Validators.PhoneExample | tests/test_validators.py:13-15 | "+74951234567" is accepted |
| Validators.InnExamples | tests/test_validators.py:17-19 | "1234567890" is accepted; the empty string is not |
| Validators.RatingExamples | tests/test_validators.py:21-23 | "5" is accepted; "-1" is not |

## Left out

- Everything outside these four pieces is not modelled: the windows, dialogs and styles under `views/` and `utils/styles.py`; the MySQL wrapper `database/connection.py`; the SQL of `models/`. These are presentation and I/O, and the sums and roundings inside their SQL happen in the database.
- Database lookups: `execute_query` is I/O. A query that finds no row, or fails and returns nothing, is modelled as the id missing from its map. A NULL or non-numeric column value would make `Decimal(...)` raise, and the handler would return -1; this is not modelled, because map values are reals.
- Floating point and Decimal precision: all arithmetic is exact over `real`. IEEE-754 rounding in the float copies and Decimal's 28-digit context are not modelled. Nor are non-finite floats: in material_calculator_method.py a product that overflows to infinity, or an infinite or NaN parameter, makes `math.ceil` raise, and the bare `except` returns -1 (for example `(1, 1, 1, 0, 1e200, 1e200)`); the model returns the exact, very large amount instead. The standalone copy in the tests has no handler, so there the same inputs raise. A Decimal `quantize` whose result has too many digits raises, and the handler would return -1; this is not modelled either. Where float and Decimal results differ at a boundary, the model gives the exact answer. The conversion `float(total_cost)` at the end of the order cost is not modelled.
- Python's dynamic typing: the `isinstance` checks of the float calculator (including `bool` passing as `int`) are replaced by the parameter types. So is any failure from comparing a non-number. Of the cases the catch-all handlers turn into -1, the model covers only the Decimal division by zero. The others are not modelled: the float overflow and non-finite cases above, a NULL or non-numeric database value, and an oversized Decimal `quantize`.
- Library quirks in the validators: `int()` also accepts surrounding whitespace, `_` digit separators and non-ASCII digits, and on recent Python versions it rejects decimal strings longer than 4300 digits, so `validate_rating` returns False for them while `Validators.ValidateRating` accepts a numeral of any length; `str.isdigit` accepts non-ASCII digits; the regular expression's `$` also matches before a final newline. The model uses ASCII digits with an optional sign and treats `$` as the end of the string.
