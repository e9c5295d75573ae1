/** One prediction request of the Streamlit script app.py, from the widget values
    to the reconciled result. The three pre-trained artifacts (a feature scaler, a
    demand regressor and a revenue regressor) are opaque: they are passed in as
    functions of the seven-slot feature row, and their outputs may be any number,
    a negative demand included. The reference CSV is passed in as its two label
    columns, or as nothing when it could not be read. */
module App {
  import opened Wrappers
  import opened LabelOrder
  import opened SortedLists
  import opened Encoding
  import opened Features
  import opened Reconciliation

  /** `scaler`, `modelo_demanda` and `modelo_ingresos` (app.py:26-28). */
  datatype Artifacts = Artifacts(
    scaler: Vec7 -> Vec7,
    demandModel: Vec7 -> real,
    revenueModel: Vec7 -> real)

  /** The `Categoria` and `Clima` columns of the reference CSV. */
  datatype ReferenceData = ReferenceData(categoryColumn: seq<string>, weatherColumn: seq<string>)

  datatype Encoders = Encoders(category: Vocabulary, weather: Vocabulary)

  /** `create_encoders(df)` (app.py:54-65): no data, no encoders. */
  function CreateEncoders(data: Option<ReferenceData>): (e: Option<Encoders>)
    ensures e.Some? <==> data.Some?
    ensures e.Some? ==> StrictlySorted(e.value.category.classes) && StrictlySorted(e.value.weather.classes)
    ensures e.Some? ==> forall l :: l in e.value.category.classes <==> l in data.value.categoryColumn
    ensures e.Some? ==> forall l :: l in e.value.weather.classes <==> l in data.value.weatherColumn
  {
    match data
    case Some(d) => Some(Encoders(Fit(d.categoryColumn), Fit(d.weatherColumn)))
    case None => None
  }

  /** The category choices offered when the CSV is missing (app.py:90). */
  const DEFAULT_CATEGORIES: seq<string> := ["Accesorios", "Bicicletas", "Componentes", "Ropa"]

  /** The weather choices offered when the CSV is missing (app.py:91): not in
      label order. */
  const DEFAULT_WEATHERS: seq<string> := ["Soleado", "Nublado", "Lluvioso"]

  /** The same three weather labels in label order, so that their positions are
      the codes a label encoder gives them. */
  const DEFAULT_WEATHERS_SORTED: seq<string> := ["Lluvioso", "Nublado", "Soleado"]

  lemma DefaultListsSorted()
    ensures StrictlySorted(DEFAULT_CATEGORIES)
    ensures !StrictlySorted(DEFAULT_WEATHERS)
    ensures StrictlySorted(DEFAULT_WEATHERS_SORTED)
  {
    assert !Less(DEFAULT_WEATHERS[0], DEFAULT_WEATHERS[1]);
  }

  /** `sorted(df[column].unique().tolist())` (app.py:75-76), or the default list. */
  function Choices(column: Option<seq<string>>, defaults: seq<string>): (c: seq<string>)
    ensures column.Some? ==> StrictlySorted(c) && forall l :: l in c <==> l in column.value
    ensures column.None? ==> c == defaults
  {
    match column
    case Some(col) =>
      SortDistinct(Unique(col));
      assert forall l :: l in Sort(Unique(col)) <==> l in multiset(Unique(col));
      Sort(Unique(col))
    case None => defaults
  }

  /** `categorias` (app.py:75 and app.py:90): always in label order. */
  function CategoryChoices(data: Option<ReferenceData>): (c: seq<string>)
    ensures StrictlySorted(c)
    ensures data.Some? ==> forall l :: l in c <==> l in data.value.categoryColumn
    ensures data.None? ==> c == DEFAULT_CATEGORIES
  {
    DefaultListsSorted();
    Choices(if data.Some? then Some(data.value.categoryColumn) else None, DEFAULT_CATEGORIES)
  }

  /** `climas` (app.py:76 and app.py:91): in label order only when the CSV loaded. */
  function WeatherChoices(data: Option<ReferenceData>): (c: seq<string>)
    ensures data.Some? ==> StrictlySorted(c) && forall l :: l in c <==> l in data.value.weatherColumn
    ensures data.None? ==> c == DEFAULT_WEATHERS
  {
    Choices(if data.Some? then Some(data.value.weatherColumn) else None, DEFAULT_WEATHERS)
  }

  /** The two codes fed to the feature row, and whether the "not found in the
      dataset" warning of app.py:146 was shown. */
  datatype Encoded = Encoded(category: nat, weather: nat, warned: bool)

  function Degraded(categories: seq<string>, weathers: seq<string>, category: string, weather: string, warned: bool): Encoded {
    Encoded(FallbackCode(categories, category), FallbackCode(weathers, weather), warned)
  }

  /** app.py:140-152. With encoders, both labels are encoded; if either is unknown
      the warning is shown and both codes come from positions in the offered
      choices. Without encoders the positions are used without a warning. */
  function EncodeInputs(encoders: Option<Encoders>, categories: seq<string>, weathers: seq<string>,
                        category: string, weather: string): (e: Encoded)
    ensures e.warned <==> encoders.Some? && (category !in encoders.value.category.classes || weather !in encoders.value.weather.classes)
    ensures encoders.Some? && !e.warned ==>
              && e.category < |encoders.value.category.classes| && encoders.value.category.classes[e.category] == category
              && e.weather < |encoders.value.weather.classes| && encoders.value.weather.classes[e.weather] == weather
    ensures encoders.None? || e.warned ==>
              e.category == FallbackCode(categories, category) && e.weather == FallbackCode(weathers, weather)
  {
    match encoders
    case Some(enc) =>
      (match Transform(enc.category, category)
       case Failure(_) => Degraded(categories, weathers, category, weather, true)
       case Success(c) =>
         (match Transform(enc.weather, weather)
          case Failure(_) => Degraded(categories, weathers, category, weather, true)
          case Success(w) => Encoded(c, w, false)))
    case None => Degraded(categories, weathers, category, weather, false)
  }

  /** The widget values of app.py:103-133. */
  datatype Inputs = Inputs(
    category: string,
    weather: string,
    basePrice: real,
    discountPercent: int,
    competitorPrice: real,
    stock: int,
    sportsEvent: bool)

  datatype Prediction = Prediction(
    encoded: Encoded,
    features: Vec7,
    predictedRevenue: real,  // the revenue model's own figure, never reconciled
    outcome: Outcome)

  /** One press of the predict button (app.py:136-197). */
  function Predict(art: Artifacts, encoders: Option<Encoders>, categories: seq<string>, weathers: seq<string>,
                   input: Inputs): (p: Prediction)
    ensures p.encoded == EncodeInputs(encoders, categories, weathers, input.category, input.weather)
    ensures p.features[BASE_PRICE] == input.basePrice && p.features[DISCOUNT] * 100.0 == input.discountPercent as real
    ensures p.features[STOCK] == input.stock as real && p.features[COMPETITOR_PRICE] == input.competitorPrice
    ensures p.features[CATEGORY] == p.encoded.category as real && p.features[WEATHER] == p.encoded.weather as real
    ensures p.features[EVENT] == (if input.sportsEvent then 1.0 else 0.0)
    ensures p.predictedRevenue == art.revenueModel(art.scaler(p.features))
    ensures var raw := art.demandModel(art.scaler(p.features));
            p.outcome.demand == (if raw < 0.0 then 0.0 else raw)
    ensures p.outcome.realizedQuantity + p.outcome.lostQuantity == p.outcome.demand
    ensures p.outcome.lostQuantity >= 0.0 && p.outcome.realizedQuantity <= input.stock as real
    ensures LostSalesWarning(p.outcome) <==> StockAlert(p.outcome, input.stock)
    ensures 0 <= input.discountPercent <= 50 && input.basePrice >= 0.0 ==>
              input.basePrice / 2.0 <= p.outcome.unitPrice <= input.basePrice
    ensures p.outcome == Reconcile(art.demandModel(art.scaler(p.features)), input.basePrice, p.features[DISCOUNT], input.stock)
  {
    var encoded := EncodeInputs(encoders, categories, weathers, input.category, input.weather);
    var features := Assemble(input.basePrice, input.discountPercent, input.stock, input.competitorPrice,
                             encoded.category, encoded.weather, input.sportsEvent);
    var scaled := art.scaler(features);
    var outcome := Reconcile(art.demandModel(scaled), input.basePrice, features[DISCOUNT], input.stock);
    AlertsAgree(art.demandModel(scaled), input.basePrice, features[DISCOUNT], input.stock);
    assert 0 <= input.discountPercent <= 50 && input.basePrice >= 0.0 ==>
             input.basePrice / 2.0 <= outcome.unitPrice <= input.basePrice by {
      if 0 <= input.discountPercent <= 50 && input.basePrice >= 0.0 {
        UnitPriceWithinDiscountRange(input.basePrice, features[DISCOUNT]);
      }
    }
    Prediction(encoded, features, art.revenueModel(scaled), outcome)
  }

  datatype Response = Stopped | Served(prediction: Prediction)

  /** The script: without all three artifacts it stops (app.py:39-40); otherwise it
      builds the encoders and choices from the reference data and predicts. A
      served request never shows the warning when its labels were offered: with
      the CSV each code is the fitted encoder's, without it the label's position
      in the default list. */
  function Run(artifacts: Option<Artifacts>, data: Option<ReferenceData>, input: Inputs): (r: Response)
    ensures r.Stopped? <==> artifacts.None?
    ensures r.Served? && data.None? ==>
              && !r.prediction.encoded.warned
              && r.prediction.encoded.category == FallbackCode(DEFAULT_CATEGORIES, input.category)
              && r.prediction.encoded.weather == FallbackCode(DEFAULT_WEATHERS, input.weather)
    ensures r.Served? && data.Some? && input.category in CategoryChoices(data) && input.weather in WeatherChoices(data) ==>
              && !r.prediction.encoded.warned
              && Success(r.prediction.encoded.category) == Transform(Fit(data.value.categoryColumn), input.category)
              && Success(r.prediction.encoded.weather) == Transform(Fit(data.value.weatherColumn), input.weather)
    ensures r.Served? ==>
              r.prediction.features == Assemble(input.basePrice, input.discountPercent, input.stock, input.competitorPrice,
                                                r.prediction.encoded.category, r.prediction.encoded.weather, input.sportsEvent)
    ensures r.Served? ==>
              var p := r.prediction;
              var scaled := artifacts.value.scaler(p.features);
              && p.features[CATEGORY] == p.encoded.category as real
              && p.features[WEATHER] == p.encoded.weather as real
              && p.predictedRevenue == artifacts.value.revenueModel(scaled)
              && p.outcome == Reconcile(artifacts.value.demandModel(scaled), input.basePrice, p.features[DISCOUNT], input.stock)
  {
    match artifacts
    case None => Stopped
    case Some(art) =>
      assert data.Some? && input.category in CategoryChoices(data) && input.weather in WeatherChoices(data) ==>
               var e := EncodeInputs(CreateEncoders(data), CategoryChoices(data), WeatherChoices(data), input.category, input.weather);
               && !e.warned
               && Success(e.category) == Transform(Fit(data.value.categoryColumn), input.category)
               && Success(e.weather) == Transform(Fit(data.value.weatherColumn), input.weather) by {
        if data.Some? && input.category in CategoryChoices(data) && input.weather in WeatherChoices(data) {
          LoadedDataNeverWarns(data, input.category, input.weather);
        }
      }
      Served(Predict(art, CreateEncoders(data), CategoryChoices(data), WeatherChoices(data), input))
  }

  /** A strictly sorted choice list gives every label its encoder code. */
  lemma SortedChoicesMatchEncoder(choices: seq<string>, name: string)
    requires StrictlySorted(choices) && name in choices
    ensures Transform(Fit(choices), name) == Success(FallbackCode(choices, name))
  {
    StrictlySortedUniqueness(Fit(choices).classes, choices);
  }

  /** With the reference data loaded, labels picked from the offered choices are
      always known to the encoders: no warning, and each code is both the
      encoder's code and the label's position in its choice list. */
  lemma LoadedDataNeverWarns(data: Option<ReferenceData>, category: string, weather: string)
    requires data.Some?
    requires category in CategoryChoices(data) && weather in WeatherChoices(data)
    ensures var e := EncodeInputs(CreateEncoders(data), CategoryChoices(data), WeatherChoices(data), category, weather);
            && !e.warned
            && Success(e.category) == Transform(Fit(data.value.categoryColumn), category)
            && Success(e.weather) == Transform(Fit(data.value.weatherColumn), weather)
            && e.category == FallbackCode(CategoryChoices(data), category)
            && e.weather == FallbackCode(WeatherChoices(data), weather)
  {
    FallbackAgreesWithEncoder(data.value.categoryColumn, category);
    FallbackAgreesWithEncoder(data.value.weatherColumn, weather);
  }

  /** Without the reference data there are no encoders: no warning, and each code
      is the label's position in the default list as app.py:90-91 write it. The
      category positions are the codes an encoder fitted on the category defaults
      gives them. */
  lemma MissingDataUsesDefaultPositions(category: string, weather: string)
    requires category in DEFAULT_CATEGORIES
    ensures var e := EncodeInputs(CreateEncoders(None), CategoryChoices(None), WeatherChoices(None), category, weather);
            && !e.warned
            && Success(e.category) == Transform(Fit(DEFAULT_CATEGORIES), category)
            && e.weather == FallbackCode(DEFAULT_WEATHERS, weather)
  {
    DefaultListsSorted();
    SortedChoicesMatchEncoder(DEFAULT_CATEGORIES, category);
  }

  /** As app.py:91 writes the defaults, "Soleado" is offered at position 0, while an
      encoder fitted on the same three labels codes it 2. */
  lemma DefaultWeatherCodesDisagree()
    ensures FallbackCode(WeatherChoices(None), "Soleado") == 0
    ensures Transform(Fit(DEFAULT_WEATHERS), "Soleado") == Success(2)
  {
    DefaultListsSorted();
    var c := Fit(DEFAULT_WEATHERS).classes;
    forall l
      ensures l in c <==> l in DEFAULT_WEATHERS_SORTED
    {
      assert l in DEFAULT_WEATHERS <==> l in DEFAULT_WEATHERS_SORTED;
    }
    StrictlySortedUniqueness(c, DEFAULT_WEATHERS_SORTED);
    CodeRoundTrip(Fit(DEFAULT_WEATHERS), 2);
  }

  /** Correction of app.py:91: with the weather defaults in label order, the
      position of every default label is the code an encoder fitted on the same
      labels gives it, for the weather list as for the category list. */
  lemma SortedWeatherDefaultsMatchEncoder(weather: string)
    requires weather in DEFAULT_WEATHERS_SORTED
    ensures Transform(Fit(DEFAULT_WEATHERS), weather) == Success(FallbackCode(DEFAULT_WEATHERS_SORTED, weather))
    ensures Transform(Fit(DEFAULT_WEATHERS_SORTED), weather) == Success(FallbackCode(DEFAULT_WEATHERS_SORTED, weather))
  {
    DefaultListsSorted();
    SortedChoicesMatchEncoder(DEFAULT_WEATHERS_SORTED, weather);
    var c := Fit(DEFAULT_WEATHERS).classes;
    forall l
      ensures l in c <==> l in DEFAULT_WEATHERS_SORTED
    {
      assert l in DEFAULT_WEATHERS <==> l in DEFAULT_WEATHERS_SORTED;
    }
    StrictlySortedUniqueness(c, DEFAULT_WEATHERS_SORTED);
  }
}
