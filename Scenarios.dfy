/** Worked requests: the reconciliation of a request whose demand exceeds the
    stock, a request with no stock, an unknown label, and a negative demand
    prediction. The artifacts are stand-ins that return fixed numbers. */
module Scenarios {
  import opened Wrappers
  import opened Encoding
  import opened Features
  import opened Reconciliation
  import opened App

  /** A scaler that passes the row through and regressors with fixed outputs. */
  function Fixed(demand: real, revenue: real): Artifacts {
    Artifacts((v: Vec7) => v, (v: Vec7) => demand, (v: Vec7) => revenue)
  }

  /** Base price 500, 10% off, stock 50, demand 60: 50 units sold for 22500 and
      10 units lost, worth 4500. Without the CSV, "Bicicletas" gets its position 1
      in the category defaults and "Soleado" its position 0 in the weather
      defaults as app.py:91 lists them. */
  lemma DemandAboveStock()
    ensures var r := Run(Some(Fixed(60.0, 27000.0)), None,
                         Inputs("Bicicletas", "Soleado", 500.0, 10, 480.0, 50, false));
            && r.Served?
            && r.prediction.encoded == Encoded(1, 0, false)
            && r.prediction.features == [500.0, 0.1, 50.0, 480.0, 1.0, 0.0, 0.0]
            && r.prediction.predictedRevenue == 27000.0
            && r.prediction.outcome == Outcome(60.0, 450.0, 50.0, 22500.0, 10.0, 4500.0)
            && LostSalesWarning(r.prediction.outcome)
  {
  }

  /** No stock: nothing is sold and the whole demand of 30 at 100 is lost. */
  lemma NoStock()
    ensures Reconcile(30.0, 100.0, DiscountFraction(0), 0) == Outcome(30.0, 100.0, 0.0, 0.0, 30.0, 3000.0)
  {
  }

  /** A category the encoder never saw but that is offered third: code 2 and the
      warning. This exercises the call-site policy of app.py:140-148 on its own:
      the script itself never pairs encoders with the default choice lists, since
      encoders exist only when the CSV loaded (see `LoadedDataNeverWarns`). */
  lemma UnknownCategoryFallsBack()
    ensures EncodeInputs(Some(Encoders(Vocabulary(["Accesorios", "Bicicletas", "Ropa"]), Vocabulary(DEFAULT_WEATHERS_SORTED))),
                         DEFAULT_CATEGORIES, DEFAULT_WEATHERS_SORTED, "Componentes", "Nublado")
            == Encoded(2, 1, true)
  {
  }

  /** A prediction of -5 units is clamped to 0 before anything else: nothing sold, nothing lost. */
  lemma NegativeDemand()
    ensures var o := Reconcile(-5.0, 500.0, DiscountFraction(10), 50);
            o.demand == 0.0 && o.realizedQuantity == 0.0 && o.lostQuantity == 0.0
            && !LostSalesWarning(o) && !StockAlert(o, 50)
  {
  }
}
