/**
 * The material requirement calculator of utils/material_calculator.py.
 *
 * The database lookups of the product-type coefficient and the material-type
 * defect rate are passed in as maps; an id the query does not find is a key
 * missing from its map. Decimal arithmetic is modelled over exact reals. The
 * result is the source's integer, with -1 as its error sentinel.
 */
module MaterialCalculator {
  import opened Rounding

  /** The sentinel every rejected input and every caught exception returns. */
  const Rejected: int := -1

  /** Quantity of product still to be manufactured: max(0, required - stock). */
  function Shortfall(required: int, stock: int): (n: nat)
    ensures n == 0 <==> required <= stock
    ensures required > stock ==> n as int + stock == required
  {
    if required > stock then required - stock else 0
  }

  /**
   * The exact amount of material for `shortfall` units: the two shape
   * parameters times the product coefficient times the shortfall, inflated
   * by the defect rate.
   */
  function ExactAmount(param1: real, param2: real, coefficient: real, shortfall: nat, defect: real): (amount: real)
    requires defect != 1.0
    ensures amount - defect * amount == param1 * param2 * coefficient * (shortfall as real)
  {
    param1 * param2 * coefficient * (shortfall as real) / (1.0 - defect)
  }

  /** The checks the calculator makes before it computes anything. */
  predicate Accepted(productType: int, materialType: int, required: int, stock: int,
                     param1: real, param2: real,
                     coefficients: map<int, real>, defects: map<int, real>)
  {
    && required >= 0 && stock >= 0
    && param1 > 0.0 && param2 > 0.0
    && productType in coefficients
    && materialType in defects
  }

  /**
   * Reference data the calculator is meant for: positive coefficients and
   * defect rates in [0, 1), as in the fixed tables of the float calculator.
   */
  predicate WellFormedTables(coefficients: map<int, real>, defects: map<int, real>)
  {
    && (forall k | k in coefficients :: coefficients[k] > 0.0)
    && (forall k | k in defects :: 0.0 <= defects[k] < 1.0)
  }

  /**
   * MaterialCalculator.calculate_material_amount. A defect rate of exactly 1
   * makes the Decimal division raise; the catch-all turns that into -1.
   */
  function Calculate(productType: int, materialType: int, required: int, stock: int,
                     param1: real, param2: real,
                     coefficients: map<int, real>, defects: map<int, real>): (r: int)
    ensures required < 0 || stock < 0 ==> r == Rejected
    ensures param1 <= 0.0 || param2 <= 0.0 ==> r == Rejected
    ensures productType !in coefficients ==> r == Rejected
    ensures materialType !in defects ==> r == Rejected
    ensures (Accepted(productType, materialType, required, stock, param1, param2, coefficients, defects)
             && required <= stock) ==> r == 0
    ensures (Accepted(productType, materialType, required, stock, param1, param2, coefficients, defects)
             && required > stock && defects[materialType] == 1.0) ==> r == Rejected
    ensures (Accepted(productType, materialType, required, stock, param1, param2, coefficients, defects)
             && required > stock && defects[materialType] != 1.0) ==>
              var exact := ExactAmount(param1, param2, coefficients[productType],
                                       (required - stock) as nat, defects[materialType]);
              && (exact >= 0.0 ==> exact <= r as real < exact + 1.0)
              && (exact < 0.0 ==> exact - 1.0 < r as real <= exact)
  {
    if required < 0 || stock < 0 then Rejected
    else if param1 <= 0.0 || param2 <= 0.0 then Rejected
    else if productType !in coefficients then Rejected
    else if materialType !in defects then Rejected
    else
      var shortfall := Shortfall(required, stock);
      if shortfall == 0 then 0
      else if defects[materialType] == 1.0 then Rejected
      else RoundUp(ExactAmount(param1, param2, coefficients[productType], shortfall, defects[materialType]))
  }

  /** The module-level calculate_material_amount, which delegates to the class method. */
  function CalculateMaterialAmount(productType: int, materialType: int, required: int, stock: int,
                                   param1: real, param2: real,
                                   coefficients: map<int, real>, defects: map<int, real>): (r: int)
    ensures r == Calculate(productType, materialType, required, stock, param1, param2, coefficients, defects)
  {
    Calculate(productType, materialType, required, stock, param1, param2, coefficients, defects)
  }

  /** Dividing by a positive divisor keeps the sign and the order of the dividends. */
  lemma DivideByPositive(x: real, y: real, d: real)
    requires d > 0.0
    ensures x > 0.0 ==> x / d > 0.0
    ensures x <= y ==> x / d <= y / d
  {
  }

  /** A positive request over well-formed reference data needs a positive amount. */
  lemma ExactAmountPositive(param1: real, param2: real, coefficient: real, shortfall: nat, defect: real)
    requires param1 > 0.0 && param2 > 0.0 && coefficient > 0.0 && shortfall > 0
    requires 0.0 <= defect < 1.0
    ensures ExactAmount(param1, param2, coefficient, shortfall, defect) > 0.0
  {
  }

  /** More units to make never need less material. */
  lemma ExactAmountMonotone(param1: real, param2: real, coefficient: real, n1: nat, n2: nat, defect: real)
    requires param1 > 0.0 && param2 > 0.0 && coefficient > 0.0
    requires 0.0 <= defect < 1.0
    requires n1 <= n2
    ensures ExactAmount(param1, param2, coefficient, n1, defect)
            <= ExactAmount(param1, param2, coefficient, n2, defect)
  {
    var unit := param1 * param2 * coefficient;
    assert unit > 0.0 by {
      assert param1 * param2 > 0.0;
    }
    assert unit * (n1 as real) <= unit * (n2 as real);
    DivideByPositive(unit * (n1 as real), unit * (n2 as real), 1.0 - defect);
  }

  /**
   * With well-formed tables every accepted request with a shortfall needs at
   * least one unit of material, so -1 comes only from a failed check.
   */
  lemma RejectedOnlyOnFailedCheck(productType: int, materialType: int, required: int, stock: int,
                                  param1: real, param2: real,
                                  coefficients: map<int, real>, defects: map<int, real>)
    requires WellFormedTables(coefficients, defects)
    ensures Calculate(productType, materialType, required, stock, param1, param2, coefficients, defects) == Rejected
            <==> !Accepted(productType, materialType, required, stock, param1, param2, coefficients, defects)
    ensures Accepted(productType, materialType, required, stock, param1, param2, coefficients, defects) ==>
              Calculate(productType, materialType, required, stock, param1, param2, coefficients, defects) >= 0
    ensures (Accepted(productType, materialType, required, stock, param1, param2, coefficients, defects) && required > stock) ==>
              Calculate(productType, materialType, required, stock, param1, param2, coefficients, defects) >= 1
  {
    if Accepted(productType, materialType, required, stock, param1, param2, coefficients, defects) && required > stock {
      ExactAmountPositive(param1, param2, coefficients[productType], Shortfall(required, stock), defects[materialType]);
    }
  }

  /** Stock enters the result only through the shortfall. */
  lemma StockOnlyThroughShortfall(productType: int, materialType: int, required: int, stock1: int, stock2: int,
                                  param1: real, param2: real,
                                  coefficients: map<int, real>, defects: map<int, real>)
    requires stock1 >= 0 && stock2 >= 0
    requires Shortfall(required, stock1) == Shortfall(required, stock2)
    ensures Calculate(productType, materialType, required, stock1, param1, param2, coefficients, defects)
         == Calculate(productType, materialType, required, stock2, param1, param2, coefficients, defects)
  {
  }

  /** With well-formed tables, raising the required quantity never lowers the result. */
  lemma MonotoneInRequired(productType: int, materialType: int, required1: int, required2: int, stock: int,
                           param1: real, param2: real,
                           coefficients: map<int, real>, defects: map<int, real>)
    requires WellFormedTables(coefficients, defects)
    requires 0 <= required1 <= required2
    ensures Calculate(productType, materialType, required1, stock, param1, param2, coefficients, defects)
         <= Calculate(productType, materialType, required2, stock, param1, param2, coefficients, defects)
  {
    var c1 := Calculate(productType, materialType, required1, stock, param1, param2, coefficients, defects);
    var c2 := Calculate(productType, materialType, required2, stock, param1, param2, coefficients, defects);
    RejectedOnlyOnFailedCheck(productType, materialType, required1, stock, param1, param2, coefficients, defects);
    RejectedOnlyOnFailedCheck(productType, materialType, required2, stock, param1, param2, coefficients, defects);
    if !Accepted(productType, materialType, required1, stock, param1, param2, coefficients, defects) {
      assert !Accepted(productType, materialType, required2, stock, param1, param2, coefficients, defects);
    } else if required1 <= stock {
      assert c1 == 0;
    } else {
      var coefficient, defect := coefficients[productType], defects[materialType];
      var n1, n2 := Shortfall(required1, stock), Shortfall(required2, stock);
      var e1, e2 := ExactAmount(param1, param2, coefficient, n1, defect), ExactAmount(param1, param2, coefficient, n2, defect);
      ExactAmountPositive(param1, param2, coefficient, n1, defect);
      ExactAmountPositive(param1, param2, coefficient, n2, defect);
      ExactAmountMonotone(param1, param2, coefficient, n1, n2, defect);
      assert c1 == RoundUp(e1) == Ceil(e1);
      assert c2 == RoundUp(e2) == Ceil(e2);
      CeilMonotone(e1, e2);
    }
  }
}
