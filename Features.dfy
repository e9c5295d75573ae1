/** The feature vector of app.py:155-176: seven numbers in the column order the
    scaler and both regressors were fitted with. Reordering the slots would not
    fail anywhere; it would silently feed the models the wrong columns, so the
    order is part of the contract. */
module Features {

  /** A row of the seven-column frame handed to the scaler. */
  type Vec7 = v: seq<real> | |v| == 7 witness [0.0, 0.0, 0.0, 0.0, 0.0, 0.0, 0.0]

  /** Column positions, as trained: Precio_Base, Descuento_Aplicado,
      Stock_Previo_Dia, Precio_Competencia, Categoria_encoded, Clima_encoded,
      Evento_Deportivo_int. */
  const BASE_PRICE := 0
  const DISCOUNT := 1
  const STOCK := 2
  const COMPETITOR_PRICE := 3
  const CATEGORY := 4
  const WEATHER := 5
  const EVENT := 6

  /** The slider's percentage as a fraction (app.py:155). */
  function DiscountFraction(percent: int): (f: real)
    ensures f * 100.0 == percent as real
    ensures 0 <= percent <= 50 ==> 0.0 <= f <= 0.5
  {
    percent as real / 100.0
  }

  /** The event checkbox as a number (app.py:158). */
  function EventFlag(sportsEvent: bool): (e: real)
    ensures e == 0.0 || e == 1.0
    ensures e == 1.0 <==> sportsEvent
  {
    if sportsEvent then 1.0 else 0.0
  }

  /** The frame built at app.py:168-176. */
  function Assemble(basePrice: real, discountPercent: int, stock: int, competitorPrice: real,
                    categoryCode: nat, weatherCode: nat, sportsEvent: bool): (v: Vec7)
    ensures v[BASE_PRICE] == basePrice
    ensures v[DISCOUNT] * 100.0 == discountPercent as real
    ensures 0 <= discountPercent <= 50 ==> 0.0 <= v[DISCOUNT] <= 0.5
    ensures v[STOCK] == stock as real
    ensures v[COMPETITOR_PRICE] == competitorPrice
    ensures v[CATEGORY] == categoryCode as real
    ensures v[WEATHER] == weatherCode as real
    ensures v[EVENT] == 0.0 || v[EVENT] == 1.0
    ensures v[EVENT] == 1.0 <==> sportsEvent
  {
    [basePrice, DiscountFraction(discountPercent), stock as real, competitorPrice,
     categoryCode as real, weatherCode as real, EventFlag(sportsEvent)]
  }

  /** Different inputs give different vectors: every input can be read back from
      its slot, the discount percentage included. */
  lemma AssembleInjective(b1: real, d1: int, s1: int, p1: real, c1: nat, w1: nat, e1: bool,
                          b2: real, d2: int, s2: int, p2: real, c2: nat, w2: nat, e2: bool)
    requires Assemble(b1, d1, s1, p1, c1, w1, e1) == Assemble(b2, d2, s2, p2, c2, w2, e2)
    ensures b1 == b2 && d1 == d2 && s1 == s2 && p1 == p2 && c1 == c2 && w1 == w2 && e1 == e2
  {
    var v := Assemble(b1, d1, s1, p1, c1, w1, e1);
    assert d1 as real == v[DISCOUNT] * 100.0 == d2 as real;
  }
}
