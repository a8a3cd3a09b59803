/**
 * The standalone calculator of tests/test_material_calculator_standalone.py:
 * its own copy of the two tables, the type ids checked before the quantities
 * and parameters, no exception handler.
 */
module StandaloneCalculator {
  import opened Rounding
  import MaterialCalculator
  import MaterialMethod

  function ProductCoefficients(): map<int, real>
  {
    map[1 := 1.5, 2 := 3.5, 3 := 5.25, 4 := 4.5, 5 := 2.17]
  }

  function MaterialDefects(): map<int, real>
  {
    map[1 := 0.002, 2 := 0.005, 3 := 0.003, 4 := 0.0015, 5 := 0.0018]
  }

  /** The standalone copy of the tables is the same as the method file's. */
  lemma SameTablesAsMethod()
    ensures ProductCoefficients() == MaterialMethod.ProductCoefficients()
    ensures MaterialDefects() == MaterialMethod.MaterialDefects()
  {
  }

  /** The standalone calculate_material_amount: type ids first, then quantities, then parameters. */
  function CalculateMaterialAmount(productType: int, materialType: int, required: int, stock: int,
                                   param1: real, param2: real): (r: int)
    ensures productType !in ProductCoefficients() || materialType !in MaterialDefects() ==> r == MaterialCalculator.Rejected
    ensures required < 0 || stock < 0 ==> r == MaterialCalculator.Rejected
    ensures param1 <= 0.0 || param2 <= 0.0 ==> r == MaterialCalculator.Rejected
    ensures (productType in ProductCoefficients() && materialType in MaterialDefects()
             && required >= 0 && stock >= 0 && param1 > 0.0 && param2 > 0.0 && required <= stock) ==> r == 0
    ensures (productType in ProductCoefficients() && materialType in MaterialDefects()
             && required >= 0 && stock >= 0 && param1 > 0.0 && param2 > 0.0 && required > stock) ==>
              var exact := MaterialCalculator.ExactAmount(param1, param2, ProductCoefficients()[productType],
                                                         (required - stock) as nat, MaterialDefects()[materialType]);
              exact <= r as real < exact + 1.0
  {
    if productType !in ProductCoefficients() then MaterialCalculator.Rejected
    else if materialType !in MaterialDefects() then MaterialCalculator.Rejected
    else if required < 0 || stock < 0 then MaterialCalculator.Rejected
    else if param1 <= 0.0 || param2 <= 0.0 then MaterialCalculator.Rejected
    else
      var shortfall := MaterialCalculator.Shortfall(required, stock);
      if shortfall == 0 then 0
      else
        var coefficient := ProductCoefficients()[productType];
        var defect := MaterialDefects()[materialType];
        assert defect < 1.0;
        Ceil(MaterialCalculator.ExactAmount(param1, param2, coefficient, shortfall, defect))
  }

  /**
   * The two copies agree on every input: they check the same conditions in
   * a different order, and every failed check gives the same -1.
   */
  lemma AgreesWithMethod(productType: int, materialType: int, required: int, stock: int,
                         param1: real, param2: real)
    ensures CalculateMaterialAmount(productType, materialType, required, stock, param1, param2)
         == MaterialMethod.CalculateMaterialAmount(productType, materialType, required, stock, param1, param2)
  {
  }

  /** test_valid_calculation: 2.5 * 3.0 * 1.5 * 80 / 0.998 = 901.80..., rounded up to 902. */
  lemma ValidCalculationExample()
    ensures CalculateMaterialAmount(1, 1, 100, 20, 2.5, 3.0) == 902
  {
  }

  /** test_invalid_type: product type 999 is not in the table. */
  lemma InvalidTypeExample()
    ensures CalculateMaterialAmount(999, 1, 100, 20, 2.5, 3.0) == MaterialCalculator.Rejected
  {
  }
}
