/**
 * The calculator of material_calculator_method.py: the same algorithm with
 * the reference data written into the function as two five-entry tables and
 * the result rounded with a ceiling. Python's isinstance checks are replaced
 * by the parameter types; float arithmetic is modelled over exact reals.
 */
module MaterialMethod {
  import opened Rounding
  import MaterialCalculator

  /** Coefficients of product types 1..5. */
  function ProductCoefficients(): (m: map<int, real>)
    ensures m.Keys == {1, 2, 3, 4, 5}
    ensures forall k | k in m :: m[k] > 0.0
  {
    map[1 := 1.5, 2 := 3.5, 3 := 5.25, 4 := 4.5, 5 := 2.17]
  }

  /** Defect rates of material types 1..5. */
  function MaterialDefects(): (m: map<int, real>)
    ensures m.Keys == {1, 2, 3, 4, 5}
    ensures forall k | k in m :: 0.0 <= m[k] < 1.0
  {
    map[1 := 0.002, 2 := 0.005, 3 := 0.003, 4 := 0.0015, 5 := 0.0018]
  }

  /** The fixed tables are reference data of the kind the generic calculator expects. */
  lemma TablesWellFormed()
    ensures MaterialCalculator.WellFormedTables(ProductCoefficients(), MaterialDefects())
  {
  }

  /** Every check of the function passes. */
  predicate Accepted(productType: int, materialType: int, required: int, stock: int, param1: real, param2: real)
  {
    && required >= 0 && stock >= 0
    && param1 > 0.0 && param2 > 0.0
    && 1 <= productType <= 5
    && 1 <= materialType <= 5
  }

  /** calculate_material_amount with the hard-coded tables and math.ceil. */
  function CalculateMaterialAmount(productType: int, materialType: int, required: int, stock: int,
                                   param1: real, param2: real): (r: int)
    ensures required < 0 || stock < 0 ==> r == MaterialCalculator.Rejected
    ensures param1 <= 0.0 || param2 <= 0.0 ==> r == MaterialCalculator.Rejected
    ensures !(1 <= productType <= 5) || !(1 <= materialType <= 5) ==> r == MaterialCalculator.Rejected
    ensures r == MaterialCalculator.Rejected <==> !Accepted(productType, materialType, required, stock, param1, param2)
    ensures Accepted(productType, materialType, required, stock, param1, param2) && required <= stock ==> r == 0
    ensures (Accepted(productType, materialType, required, stock, param1, param2) && required > stock) ==>
              var exact := MaterialCalculator.ExactAmount(param1, param2, ProductCoefficients()[productType],
                                                         (required - stock) as nat, MaterialDefects()[materialType]);
              && exact <= r as real < exact + 1.0
              && r >= 1
  {
    if required < 0 || stock < 0 then MaterialCalculator.Rejected
    else if param1 <= 0.0 || param2 <= 0.0 then MaterialCalculator.Rejected
    else if productType !in ProductCoefficients() then MaterialCalculator.Rejected
    else if materialType !in MaterialDefects() then MaterialCalculator.Rejected
    else
      var coefficient := ProductCoefficients()[productType];
      var defect := MaterialDefects()[materialType];
      var shortfall := MaterialCalculator.Shortfall(required, stock);
      if shortfall == 0 then 0
      else
        MaterialCalculator.ExactAmountPositive(param1, param2, coefficient, shortfall, defect);
        Ceil(MaterialCalculator.ExactAmount(param1, param2, coefficient, shortfall, defect))
  }

  /** The float file is the Decimal calculator applied to its two fixed tables. */
  lemma IsInstanceOfCalculator(productType: int, materialType: int, required: int, stock: int,
                               param1: real, param2: real)
    ensures CalculateMaterialAmount(productType, materialType, required, stock, param1, param2)
         == MaterialCalculator.Calculate(productType, materialType, required, stock, param1, param2,
                                         ProductCoefficients(), MaterialDefects())
  {
  }
}
