# Bike Gear sales prediction: the prediction-and-reconciliation core

The Streamlit script `app.py` predicts how many units of a bike-shop product
configuration will sell and what revenue that brings, then reconciles the
demand prediction with the available stock. This project models one
prediction request in Dafny:

- **label encoding**: each categorical field (product category `Categoria`,
  weather `Clima`) has a label encoder fitted on the reference CSV, whose
  vocabulary is the sorted list of the column's distinct labels; a label's
  code is its position there, and an unseen label is an error;
- **choices and fallback**: the labels offered in the form are
  `sorted(column.unique())`, or a hard-coded default list when the CSV is
  missing (`["Accesorios", "Bicicletas", "Componentes", "Ropa"]` and
  `["Soleado", "Nublado", "Lluvioso"]`, the second not in label order); when an
  encoder is missing or rejects a label, the code is the label's position in
  the offered list, or 0 if it is not there, and only the rejection path shows
  a warning;
- **feature assembly**: a seven-slot row in the trained column order (base
  price, discount fraction, stock, competitor price, category code, weather
  code, event flag 0/1);
- **reconciliation**: clamp the demand prediction at 0, apply the discount to
  the base price, sell `min(demand, stock)`, lose `max(0, demand - stock)`, and
  price both; the lost-sales warning and the stock alert are the two boolean
  conditions the page shows.

The scaler and the two regressors are opaque: `App.Artifacts` holds them as
functions of a seven-slot row, so every property holds whatever they compute,
a negative demand prediction included. The script stops when any of the three
artifacts is missing (`App.Run` returns `Stopped`). Arithmetic is over exact
`real`s; stock and the discount percentage are integers. Python's string order
is modelled as lexicographic order on code points (`LabelOrder.Less`), proved
a strict total order, which is what makes "the sorted list of the distinct
labels" one well-defined list.

Modules: `LabelOrder` (string order), `SortedLists` (numpy `unique`, pandas
`unique`, Python `sorted`), `Encoding` (encoder and fallback code), `Features`
(the feature row), `Reconciliation` (business rules and alerts), `App` (the
request as a whole), `Scenarios` (worked requests), `Wrappers` (Option, Result).

Without encoders, app.py:149-152 uses the positions in the offered lists
without showing any warning, so `Encoded.warned` is false on that path; the
warning belongs only to a label an existing encoder rejects (app.py:144-148).

## Model

| member | source | states |
|---|---|---|
| LabelOrder.LessIrreflexive | app.py:75-76 | no label sorts before itself |
| LabelOrder.LessAsymmetric | app.py:75-76 | two labels are never each below the other |
| LabelOrder.LessTransitive | app.py:75-76 | the string order is transitive |
| LabelOrder.LessTotal | app.py:75-76 | any two different labels are ordered one way or the other |
| SortedLists.SortedUnique | app.py:59-63 | the encoder vocabulary (numpy `unique`) is strictly sorted and has exactly the column's labels as members |
| SortedLists.Unique | app.py:75-76 | pandas `unique` has no repeats and exactly the column's labels as members |
| SortedLists.Sort | app.py:75-76 | Python `sorted` returns a sorted permutation of its input, and keeps a list without repeats without repeats |
| SortedLists.SortDistinct | app.py:75-76 | sorting a list without repeats gives a strictly sorted list |
| SortedLists.StrictlySortedUniqueness | app.py:59-63 | two strictly sorted lists with the same members are equal |
| SortedLists.SortedOfUniqueIsSortedUnique | app.py:59-63 | `sorted(column.unique())` equals the fitted encoder's vocabulary |
| Encoding.Fit | app.py:59-63 | a fitted vocabulary is strictly sorted and contains exactly the column's labels |
| Encoding.Transform | app.py:142-144 | encoding succeeds exactly for labels of the vocabulary, with a code below its size at which the label stands; otherwise it fails naming the label |
| Encoding.FallbackCode | app.py:147-152 | an offered label gets the index of its first occurrence in the choice list; an absent label gets 0 |
| Encoding.CodeRoundTrip | app.py:59-63 | encoding the label at position k of a fitted vocabulary gives k |
| Encoding.DistinctLabelsDistinctCodes | app.py:59-63 | different known labels get different codes |
| Encoding.CodeIsRank | app.py:59-63 | the code of a column label is the number of distinct column labels sorting before it |
| Encoding.FallbackAgreesWithEncoder | app.py:142-148 | for a column label, the position in `sorted(column.unique())` equals the encoder's code |
| Features.DiscountFraction | app.py:155 | the fraction is the percentage over 100, within [0, 0.5] for slider values 0..50 |
| Features.EventFlag | app.py:158 | the event flag is 0 or 1, and 1 exactly when the checkbox is ticked |
| Features.Assemble | app.py:168-176 | the row has seven slots in the trained order: base price, discount fraction, stock, competitor price, category code, weather code, event flag 0/1 |
| Features.AssembleInjective | app.py:168-176 | different inputs give different rows: every input can be read back from its slot |
| Reconciliation.UnitPrice | app.py:189 | a non-negative base price with a discount fraction in [0, 1] gives a price between 0 and the base price |
| Reconciliation.UnitPriceWithinDiscountRange | app.py:112-118 | with a discount of at most one half the unit price lies between half the base price and the base price |
| Reconciliation.Reconcile | app.py:185-197 | demand is the prediction clamped at 0; demand within stock is sold whole with nothing lost, demand above stock sells the stock and loses the excess; realized plus lost is the demand; sold never exceeds demand or stock; lost is never negative; revenues are quantity times unit price |
| Reconciliation.RevenueSplits | app.py:193-197 | realized revenue plus lost revenue equals demand times unit price |
| Reconciliation.RevenuesNonNegative | app.py:193-197 | with a non-negative price and stock both revenue figures are non-negative |
| Reconciliation.LostSalesWarning | app.py:250 | the lost-sales warning is shown when some units are lost; `Reconciliation.AlertsAgree` relates it to the stock alert and to the raw prediction |
| Reconciliation.StockAlert | app.py:256 | the stock alert is shown when the clamped demand exceeds the stock; `Reconciliation.AlertsAgree` proves it fires exactly when the lost-sales warning does |
| Reconciliation.AlertsAgree | app.py:250-259 | the lost-sales warning fires exactly when the stock alert does, and for non-negative stock exactly when the raw prediction exceeds the stock |
| Reconciliation.EdgeCases | app.py:186-196 | no demand means no lost sales; no stock means nothing sold, no realized revenue and the whole demand lost |
| App.CreateEncoders | app.py:54-65 | encoders exist exactly when the reference data loaded, and are fitted vocabularies of its two columns |
| App.DefaultListsSorted | app.py:90-91 | the default category list is in label order; the default weather list as written is not; the same three weather labels in label order are |
| App.Choices | app.py:74-91 | with the column loaded the choices are strictly sorted with the column's labels as members; otherwise they are the defaults |
| App.CategoryChoices | app.py:74-90 | the category choices are always strictly sorted; with the CSV loaded their members are exactly the column's labels; without it they are the default category list |
| App.WeatherChoices | app.py:74-91 | with the CSV loaded the weather choices are strictly sorted with exactly the column's labels as members; without it they are the default weather list as written, unsorted |
| App.EncodeInputs | app.py:140-152 | the warning is shown exactly when encoders exist and reject either label; without the warning and with encoders, each code decodes to its label; otherwise both codes are fallback positions in the offered choices |
| App.Predict | app.py:136-197 | the row carries the inputs and codes in trained order; the reported revenue is the revenue model's own output on the scaled row; demand is the demand model's output clamped at 0; realized plus lost is the demand; the two alerts agree; the unit price lies between half the base price and the base price; the outcome is the reconciliation of the demand model's output on the scaled row with the base price, the row's discount fraction and the stock |
| App.Run | app.py:36-197 | the script stops exactly when an artifact is missing; a served request's row is the seven-slot row of the request's base price, discount, stock, competitor price, the two codes and the event flag; a served request without the CSV shows no warning and codes each label by its position in the default lists (the weather list as app.py:91 writes it); with the CSV and offered labels it shows no warning and each code is the one the encoder fitted on the column gives; the reported revenue is the revenue model's output and the outcome the reconciliation of the demand model's output, both on the scaled row |
| App.SortedChoicesMatchEncoder | app.py:147-148 | on a strictly sorted choice list, the fallback position of every offered label equals the code of an encoder fitted on that list |
| App.LoadedDataNeverWarns | app.py:140-148 | with the CSV loaded, labels picked from the offered choices never trigger the warning, and each code is both the encoder code and the position in the choice list |
| App.MissingDataUsesDefaultPositions | app.py:149-152 | without the CSV no warning is shown, the weather code is the label's position in the weather defaults as written, and a default category's code equals the code an encoder fitted on the category defaults gives it |
| App.DefaultWeatherCodesDisagree | app.py:91 | with the weather defaults as written, "Soleado" is offered at position 0 while an encoder fitted on the same labels codes it 2 |
| App.SortedWeatherDefaultsMatchEncoder | app.py:91 | corrected defaults: with the three weather labels in label order, each one's position equals the code an encoder fitted on the defaults (as written or sorted) gives it |
| Scenarios.DemandAboveStock | app.py:149-197 | without the CSV, "Bicicletas" gets code 1 and "Soleado" code 0 (its position in the weather defaults as written), no warning; base 500, 10% off, stock 50, demand 60: price 450, 50 sold for 22500, 10 lost worth 4500, lost-sales warning shown |
| Scenarios.NoStock | app.py:192-197 | stock 0, demand 30, base 100, no discount: nothing sold, 30 lost worth 3000 |
| Scenarios.UnknownCategoryFallsBack | app.py:144-148 | a category unknown to the encoder but offered at index 2 gets code 2 with the warning shown |
| Scenarios.NegativeDemand | app.py:186 | a prediction of -5 becomes 0: nothing sold, nothing lost, no alert |

## Left out

- The page layout, sidebar widgets, metrics, text formatting and rendering of the alerts (app.py:11-19, 71-73, 77-88, 92-133, 199-285): only the two alert conditions are modelled. The button press is not modelled; `App.Run` is one press.
- The widgets' bounds: the price and stock limits come from the CSV's min, max and mean (app.py:77-100), which is file I/O and floating-point statistics; inputs are any numbers. The slider's 0..50 range appears as the hypothesis of the price bounds; its step of 5 is not modelled.
- Loading the artifacts and the CSV (`joblib.load`, `pd.read_csv`, app.py:22-50) is I/O: the artifacts come in as `Option<Artifacts>` and the CSV as `Option<ReferenceData>`, holding only the two label columns the core reads.
- The internals of the scaler and the two regressors (app.py:179-183): foreign library code, represented as arbitrary functions of a seven-slot row.
- A feature row of the wrong width cannot reach the scaler here: the row type has exactly seven slots, so scikit-learn's dimension check is not modelled.
- IEEE floating-point rounding and NaN: all arithmetic is over exact reals.
- The `astype(str)` of app.py:60 and app.py:63: labels are strings throughout, so it changes nothing in the model; non-string cells in the CSV are not modelled.
- The caching decorators (`@st.cache_resource`, `@st.cache_data`): framework lifecycle.
- Python's sort algorithm: `SortedLists.Sort` is an insertion sort; any correct sort gives the same list of strings.

## Findings

| source | as written | input that shows it | evidently intended | confidence | as-written member | corrected member |
|---|---|---|---|---|---|---|
| app.py:91 | the default weather list is `['Soleado', 'Nublado', 'Lluvioso']`, not in label order, and its positions serve as weather codes when the CSV is missing | CSV missing, weather "Soleado": code 0, while a label encoder fitted on these labels (as the models' training encoding was) codes it 2, and "Lluvioso" 0 | the default list in sorted order, as the category defaults on app.py:90 are, so that positions and encoder codes agree | medium; not executed | App.DefaultWeatherCodesDisagree | App.SortedWeatherDefaultsMatchEncoder |

`App.Run` and `App.WeatherChoices` keep the weather defaults as app.py:91 writes
them and never use the corrected list `App.DEFAULT_WEATHERS_SORTED`; it appears
in the corrected member, in `App.DefaultListsSorted` and
`App.DefaultWeatherCodesDisagree`, which compare the two lists, and in
`Scenarios.UnknownCategoryFallsBack`, which fits a weather encoder on it.
