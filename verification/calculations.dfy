/**
 * The order cost of utils/calculations.py: the sum of quantity times price
 * over the request's line items, quantized to cents with ROUND_HALF_UP and
 * clamped at zero. Decimal arithmetic is modelled over exact reals.
 */
module Calculations {
  import opened Rounding

  /** One line of a request: a product quantity and the partner's price per unit. */
  datatype LineItem = LineItem(quantity: int, price: real)

  function LineCost(item: LineItem): real
  {
    item.quantity as real * item.price
  }

  /** The unrounded total of the items, summed from the first to the last. */
  function Subtotal(items: seq<LineItem>): real
  {
    if |items| == 0 then 0.0 else Subtotal(items[..|items| - 1]) + LineCost(items[|items| - 1])
  }

  /** The amount is a whole number of cents. */
  predicate IsWholeCents(amount: real)
  {
    (amount * 100.0).Floor as real == amount * 100.0
  }

  /** Quantize to 0.01 with halves away from zero, then replace a negative amount by 0. */
  function Finalize(total: real): (cost: real)
    ensures cost >= 0.0
    ensures IsWholeCents(cost)
    ensures total >= 0.0 ==> -0.005 < cost - total <= 0.005
    ensures total < 0.0 ==> cost == 0.0
  {
    var cents := RoundHalfUp(total * 100.0);
    if cents < 0 then 0.0 else cents as real / 100.0
  }

  /** The cost of a list of line items, as a specification. */
  function OrderCost(items: seq<LineItem>): real
  {
    Finalize(Subtotal(items))
  }

  /** calculate_order_cost: one pass over the items, then the final rounding. */
  method CalculateOrderCost(items: seq<LineItem>) returns (cost: real)
    ensures cost == Finalize(Subtotal(items))
    ensures cost >= 0.0
    ensures IsWholeCents(cost)
    ensures Subtotal(items) >= 0.0 ==> -0.005 < cost - Subtotal(items) <= 0.005
    ensures Subtotal(items) < 0.0 ==> cost == 0.0
  {
    var total := 0.0;
    var i := 0;
    while i < |items|
      invariant 0 <= i <= |items|
      invariant total == Subtotal(items[..i])
    {
      assert items[..i + 1][..i] == items[..i];
      total := total + LineCost(items[i]);
      i := i + 1;
    }
    assert items[..i] == items;
    cost := Finalize(total);
  }

  /** The subtotal of a concatenation is the sum of the subtotals. */
  lemma {:induction false} SubtotalAppend(a: seq<LineItem>, b: seq<LineItem>)
    ensures Subtotal(a + b) == Subtotal(a) + Subtotal(b)
    decreases |b|
  {
    if |b| == 0 {
      assert a + b == a;
    } else {
      var b' := b[..|b| - 1];
      assert (a + b)[..|a + b| - 1] == a + b';
      SubtotalAppend(a, b');
    }
  }

  /** Reordering the line items leaves the subtotal unchanged. */
  lemma {:induction false} SubtotalPermutation(a: seq<LineItem>, b: seq<LineItem>)
    requires multiset(a) == multiset(b)
    ensures Subtotal(a) == Subtotal(b)
    decreases |a|
  {
    if |a| == 0 {
      assert |b| == |multiset(b)| == 0;
    } else {
      var last := a[|a| - 1];
      var a' := a[..|a| - 1];
      assert a == a' + [last];
      assert last in multiset(b);
      var j :| 0 <= j < |b| && b[j] == last;
      var b' := b[..j] + b[j + 1..];
      assert b == b[..j] + [last] + b[j + 1..];
      assert multiset(a) == multiset(a') + multiset{last};
      assert multiset(b) == multiset(b[..j]) + multiset{last} + multiset(b[j + 1..]);
      assert multiset(b') == multiset(b[..j]) + multiset(b[j + 1..]);
      assert multiset(a') == multiset(a) - multiset{last};
      assert multiset(b') == multiset(b) - multiset{last};
      SubtotalPermutation(a', b');
      SubtotalAppend(b[..j] + [last], b[j + 1..]);
      SubtotalAppend(b[..j], [last]);
      SubtotalAppend(b[..j], b[j + 1..]);
      assert Subtotal([last]) == LineCost(last) by {
        assert [last][..0] == [];
      }
    }
  }

  /** Reordering the line items leaves the order cost unchanged. */
  lemma OrderCostPermutation(a: seq<LineItem>, b: seq<LineItem>)
    requires multiset(a) == multiset(b)
    ensures OrderCost(a) == OrderCost(b)
  {
    SubtotalPermutation(a, b);
  }

  /** test_order_cost_calculation: 10 * 100.50 + 5 * 200.00 = 2005.00. */
  lemma TwoItemExample()
    ensures OrderCost([LineItem(10, 100.50), LineItem(5, 200.00)]) == 2005.0
  {
    var items := [LineItem(10, 100.50), LineItem(5, 200.00)];
    assert items[..1] == [LineItem(10, 100.50)];
    assert items[..1][..0] == [];
    assert Subtotal(items) == 2005.0;
  }

  /** test_order_cost_empty: no items cost 0.00. */
  lemma EmptyExample()
    ensures OrderCost([]) == 0.0
  {
  }
}
