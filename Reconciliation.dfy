/** The business rules of app.py:185-197 that turn the demand model's raw output
    into what can actually be sold from the available stock, and the two alert
    conditions of app.py:250 and app.py:256. Numbers are exact reals; stock is an
    integer, as the stock input has an integer step. */
module Reconciliation {

  datatype Outcome = Outcome(
    demand: real,            // the clamped demand prediction
    unitPrice: real,         // price after discount
    realizedQuantity: real,  // units that can be sold from stock
    realizedRevenue: real,
    lostQuantity: real,      // units demanded beyond stock
    lostRevenue: real)

  /** `precio_base * (1 - descuento_decimal)` (app.py:189). */
  function UnitPrice(basePrice: real, discountFraction: real): (p: real)
    ensures basePrice >= 0.0 && 0.0 <= discountFraction <= 1.0 ==> 0.0 <= p <= basePrice
  {
    basePrice * (1.0 - discountFraction)
  }

  /** The slider allows discounts of 0 to 50 percent, so the unit price stays between
      half the base price and the base price. */
  lemma UnitPriceWithinDiscountRange(basePrice: real, discountFraction: real)
    requires basePrice >= 0.0 && 0.0 <= discountFraction <= 0.5
    ensures basePrice / 2.0 <= UnitPrice(basePrice, discountFraction)
    ensures UnitPrice(basePrice, discountFraction) <= basePrice
  {
    var keep := 1.0 - discountFraction;
    MultiplyMonotone(basePrice, 0.5, keep);
    MultiplyMonotone(basePrice, keep, 1.0);
    calc {
      basePrice / 2.0;
      basePrice * 0.5;
    <= basePrice * keep;
      UnitPrice(basePrice, discountFraction);
    }
  }

  lemma MultiplyMonotone(a: real, x: real, y: real)
    requires a >= 0.0 && x <= y
    ensures a * x <= a * y
  {
    assert a * y - a * x == a * (y - x);
  }

  /** app.py:186-197, in order: clamp, price, realized, lost. */
  function Reconcile(rawDemand: real, basePrice: real, discountFraction: real, stock: int): (r: Outcome)
    ensures r.demand >= 0.0
    ensures rawDemand >= 0.0 ==> r.demand == rawDemand
    ensures rawDemand < 0.0 ==> r.demand == 0.0
    ensures r.unitPrice == UnitPrice(basePrice, discountFraction)
    ensures r.demand <= stock as real ==> r.realizedQuantity == r.demand && r.lostQuantity == 0.0
    ensures r.demand > stock as real ==> r.realizedQuantity == stock as real && r.lostQuantity == r.demand - stock as real
    ensures r.realizedQuantity <= r.demand && r.realizedQuantity <= stock as real
    ensures stock >= 0 ==> r.realizedQuantity >= 0.0
    ensures r.lostQuantity >= 0.0
    ensures r.realizedQuantity + r.lostQuantity == r.demand
    ensures r.realizedRevenue == r.realizedQuantity * r.unitPrice
    ensures r.lostRevenue == r.lostQuantity * r.unitPrice
  {
    var demand := if rawDemand > 0.0 then rawDemand else 0.0;
    var unitPrice := UnitPrice(basePrice, discountFraction);
    var realized := if demand < stock as real then demand else stock as real;
    var lost := if demand - stock as real > 0.0 then demand - stock as real else 0.0;
    Outcome(demand, unitPrice, realized, realized * unitPrice, lost, lost * unitPrice)
  }

  /** The realized and lost revenue together are the whole demand at the unit price. */
  lemma RevenueSplits(rawDemand: real, basePrice: real, discountFraction: real, stock: int)
    ensures var r := Reconcile(rawDemand, basePrice, discountFraction, stock);
            r.realizedRevenue + r.lostRevenue == r.demand * r.unitPrice
  {
  }

  /** With a non-negative price every revenue figure is non-negative. */
  lemma RevenuesNonNegative(rawDemand: real, basePrice: real, discountFraction: real, stock: int)
    requires basePrice >= 0.0 && 0.0 <= discountFraction <= 1.0 && stock >= 0
    ensures var r := Reconcile(rawDemand, basePrice, discountFraction, stock);
            r.realizedRevenue >= 0.0 && r.lostRevenue >= 0.0
  {
  }

  /** The lost-sales warning of app.py:250. */
  predicate LostSalesWarning(r: Outcome) {
    r.lostQuantity > 0.0
  }

  /** The stock alert of app.py:256. */
  predicate StockAlert(r: Outcome, stock: int) {
    r.demand > stock as real
  }

  /** The two alerts always agree, and for a non-negative stock they fire exactly
      when the raw prediction exceeds the stock. */
  lemma AlertsAgree(rawDemand: real, basePrice: real, discountFraction: real, stock: int)
    ensures var r := Reconcile(rawDemand, basePrice, discountFraction, stock);
            LostSalesWarning(r) <==> StockAlert(r, stock)
    ensures stock >= 0 ==>
            (LostSalesWarning(Reconcile(rawDemand, basePrice, discountFraction, stock)) <==> rawDemand > stock as real)
  {
  }

  /** No demand, no lost sales; no stock, nothing sold. */
  lemma EdgeCases(rawDemand: real, basePrice: real, discountFraction: real, stock: int)
    ensures rawDemand <= 0.0 && stock >= 0 ==>
            Reconcile(rawDemand, basePrice, discountFraction, stock).lostQuantity == 0.0
    ensures stock == 0 ==>
            var r := Reconcile(rawDemand, basePrice, discountFraction, stock);
            r.realizedQuantity == 0.0 && r.realizedRevenue == 0.0 && r.lostQuantity == r.demand
  {
  }
}
