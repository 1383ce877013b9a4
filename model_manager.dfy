/**
 * The AI service's churn model: the feature vector in configured order,
 * the heuristic used when no trained model is on disk, and the clamp and
 * banding applied to every probability, single or batch.
 */
module ModelManager {
  import opened Outcomes
  import ChurnModels
  import PredictionService

  /** A value in a feature dictionary: a number, or text such as a CUIT. */
  datatype FeatureValue = Num(x: real) | Text(s: string)

  /** A feature dictionary, keyed by feature name. */
  type Features = map<string, FeatureValue>

  /** The twelve features the service is configured with, in vector order. */
  const RequiredFeatures: seq<string> := [
    "ingresos", "gastos", "margen_operativo", "deuda_total",
    "activos_totales", "prestamos_solicitados", "prestamos_aprobados",
    "trimestre_dias_actividad", "trimestre_logins_promedio",
    "transferencias_trimestre", "pagos_trimestre", "creditos_trimestre"
  ]

  /** A trained model found on disk; only its type name and its truth value matter here. */
  datatype TrainedModel = TrainedModel(typeName: string, truthy: bool)

  /** The loaded state: the feature names and the trained model, absent when the mock is used. */
  datatype ChurnModel = ChurnModel(features: seq<string>, threshold: real, model: Option<TrainedModel>)

  /**
   * The risk levels a prediction reports, written "alto", "medio", "bajo"
   * and, after a failure, "desconocido".
   */
  datatype RiskLevel = Alto | Medio | Bajo | Desconocido
  {
    /** The level as the service writes it. */
    function Name(): string {
      match this
      case Alto => "alto"
      case Medio => "medio"
      case Bajo => "bajo"
      case Desconocido => "desconocido"
    }
  }

  /** What the trained model's probability call yields: a probability or an exception. */
  datatype ModelOutcome = Proba(p: real) | Raises

  // ---------------------------------------------------------------------
  // Feature vector
  // ---------------------------------------------------------------------

  /** The vector entry for one name: the given value, or 0.0 when the key is missing. */
  function Entry(features: Features, name: string): FeatureValue {
    if name in features then features[name] else Num(0.0)
  }

  /** The names of `names` that the dictionary lacks, in order. */
  function MissingNames(features: Features, names: seq<string>): (m: seq<string>)
    ensures |m| <= |names|
  {
    if names == [] then []
    else if names[0] in features then MissingNames(features, names[1..])
    else [names[0]] + MissingNames(features, names[1..])
  }

  /** A name is reported missing exactly when it is configured and absent from the dictionary. */
  lemma {:induction false} MissingNamesExact(features: Features, names: seq<string>)
    ensures forall n :: n in MissingNames(features, names) <==> n in names && n !in features
  {
    if names != [] {
      MissingNamesExact(features, names[1..]);
      assert names == [names[0]] + names[1..];
    }
  }

  /**
   * Builds the feature vector in the configured order, filling every missing
   * key with 0.0, and collects the missing names for the warning.
   */
  method NormalizeFeatures(model: ChurnModel, features: Features)
    returns (vector: seq<FeatureValue>, missing: seq<string>)
    ensures |vector| == |model.features|
    ensures forall i :: 0 <= i < |vector| ==> vector[i] == Entry(features, model.features[i])
    ensures forall i :: 0 <= i < |vector| && model.features[i] !in features ==> vector[i] == Num(0.0)
    ensures missing == MissingNames(features, model.features)
    ensures forall n :: n in missing <==> n in model.features && n !in features
  {
    vector := [];
    missing := [];
    var k := 0;
    while k < |model.features|
      invariant 0 <= k <= |model.features|
      invariant |vector| == k
      invariant forall i :: 0 <= i < k ==> vector[i] == Entry(features, model.features[i])
      invariant missing + MissingNames(features, model.features[k..]) == MissingNames(features, model.features)
    {
      var feature := model.features[k];
      assert model.features[k..][1..] == model.features[k + 1..];
      if feature in features {
        vector := vector + [features[feature]];
      } else {
        vector := vector + [Num(0.0)];
        missing := missing + [feature];
      }
      k := k + 1;
    }
    assert model.features[k..] == [];
    MissingNamesExact(features, model.features);
  }

  // ---------------------------------------------------------------------
  // Heuristic used without a trained model
  // ---------------------------------------------------------------------

  /** A dictionary lookup with a default, as `dict.get` does. */
  function GetOr(features: Features, key: string, default: real): FeatureValue {
    if key in features then features[key] else Num(default)
  }

  function Max(a: real, b: real): real { if a >= b then a else b }
  function Min(a: real, b: real): real { if a <= b then a else b }

  /** Clamping into the unit interval, as `min(1, max(0, x))` and `max(0, min(1, x))` both do. */
  function Clamp(x: real): (r: real)
    ensures 0.0 <= r <= 1.0
    ensures 0.0 <= x <= 1.0 ==> r == x
    ensures x < 0.0 ==> r == 0.0
    ensures x > 1.0 ==> r == 1.0
  {
    Min(1.0, Max(0.0, x))
  }

  /**
   * Debt over assets; 0 when the assets are not positive. Missing debt reads
   * as 0, missing assets as 1. Comparing or dividing text raises.
   */
  function DebtRatio(features: Features): (r: Result<real, ()>)
    ensures GetOr(features, "activos_totales", 1.0).Text? ==> r.Err?
    ensures GetOr(features, "activos_totales", 1.0) == Num(0.0) ==> r == Ok(0.0)
    ensures "activos_totales" !in features && GetOr(features, "deuda_total", 0.0).Num? ==>
              r == Ok(GetOr(features, "deuda_total", 0.0).x)
    ensures "activos_totales" !in features && "deuda_total" !in features ==> r == Ok(0.0)
    ensures GetOr(features, "activos_totales", 1.0).Num? && GetOr(features, "activos_totales", 1.0).x <= 0.0 ==> r == Ok(0.0)
    ensures GetOr(features, "activos_totales", 1.0).Num? && GetOr(features, "activos_totales", 1.0).x > 0.0 ==>
              (r.Err? <==> GetOr(features, "deuda_total", 0.0).Text?) &&
              (GetOr(features, "deuda_total", 0.0).Num? ==>
                 r == Ok(GetOr(features, "deuda_total", 0.0).x / GetOr(features, "activos_totales", 1.0).x))
  {
    var debt := GetOr(features, "deuda_total", 0.0);
    var assets := GetOr(features, "activos_totales", 1.0);
    if assets.Text? then Err(())
    else if assets.x > 0.0 then
      if debt.Text? then Err(()) else Ok(debt.x / assets.x)
    else Ok(0.0)
  }

  /** Inactivity: the share of the 90-day quarter without activity, never negative; missing days read as 90. */
  function ActivityScore(features: Features): (r: Result<real, ()>)
    ensures r.Ok? ==> r.value >= 0.0
    ensures r.Ok? <==> GetOr(features, "trimestre_dias_actividad", 90.0).Num?
    ensures "trimestre_dias_actividad" !in features ==> r == Ok(0.0)
    ensures r.Ok? && GetOr(features, "trimestre_dias_actividad", 90.0).x >= 90.0 ==> r.value == 0.0
  {
    var days := GetOr(features, "trimestre_dias_actividad", 90.0);
    if days.Text? then Err(()) else Ok(Max(0.0, 1.0 - days.x / 90.0))
  }

  /** Margin over revenue; 0 when revenue is not positive. Missing revenue reads as 1, missing expenses as 0. */
  function Profitability(features: Features): (r: Result<real, ()>)
    ensures GetOr(features, "ingresos", 1.0).Text? ==> r.Err?
    ensures GetOr(features, "ingresos", 1.0).Num? && GetOr(features, "ingresos", 1.0).x <= 0.0 ==> r == Ok(0.0)
    ensures "ingresos" !in features && "gastos" !in features ==> r == Ok(1.0)
    ensures GetOr(features, "ingresos", 1.0).Num? && GetOr(features, "ingresos", 1.0).x > 0.0 ==>
              (r.Err? <==> GetOr(features, "gastos", 0.0).Text?) &&
              (GetOr(features, "gastos", 0.0).Num? ==>
                 r.Ok? && r.value * GetOr(features, "ingresos", 1.0).x
                          == GetOr(features, "ingresos", 1.0).x - GetOr(features, "gastos", 0.0).x)
  {
    var ingresos := GetOr(features, "ingresos", 1.0);
    var gastos := GetOr(features, "gastos", 0.0);
    if ingresos.Text? then Err(())
    else if ingresos.x > 0.0 then
      if gastos.Text? then Err(()) else Ok((ingresos.x - gastos.x) / ingresos.x)
    else Ok(0.0)
  }

  /** Weighted heuristic: 0.4 debt ratio, 0.3 inactivity, 0.3 lack of profitability, clamped to [0, 1]. */
  function MockPrediction(features: Features): (r: Result<real, ()>)
    ensures r.Ok? ==> 0.0 <= r.value <= 1.0
    ensures r.Ok? <==> DebtRatio(features).Ok? && ActivityScore(features).Ok? && Profitability(features).Ok?
  {
    var debt := DebtRatio(features);
    var activity := ActivityScore(features);
    var profitability := Profitability(features);
    if debt.Err? || activity.Err? || profitability.Err? then Err(())
    else
      Ok(Clamp(debt.value * 0.4 + activity.value * 0.3 + Max(0.0, 1.0 - profitability.value) * 0.3))
  }

  /**
   * The heuristic in closed form, for a dictionary of numbers: 0.4 of the
   * debt ratio (0 without positive assets), 0.3 of the inactive share of the
   * quarter, and 0.3 of the expenses' share of revenue (1 without positive
   * revenue), clamped to [0, 1].
   */
  lemma MockClosedForm(features: Features)
    requires forall k :: k in features ==> features[k].Num?
    ensures var debt, assets := GetOr(features, "deuda_total", 0.0).x, GetOr(features, "activos_totales", 1.0).x;
            var days := GetOr(features, "trimestre_dias_actividad", 90.0).x;
            var revenue, expenses := GetOr(features, "ingresos", 1.0).x, GetOr(features, "gastos", 0.0).x;
            MockPrediction(features)
            == Ok(Clamp(0.4 * (if assets > 0.0 then debt / assets else 0.0)
                        + 0.3 * Max(0.0, 1.0 - days / 90.0)
                        + 0.3 * (if revenue > 0.0 then Max(0.0, expenses / revenue) else 1.0)))
  {
    var revenue, expenses := GetOr(features, "ingresos", 1.0), GetOr(features, "gastos", 0.0);
    assert revenue.Num? && expenses.Num?;
    assert GetOr(features, "activos_totales", 1.0).Num? && GetOr(features, "deuda_total", 0.0).Num?;
    if revenue.x > 0.0 {
      ExpenseShare(revenue.x, expenses.x);
    }
  }

  /** One minus the margin's share of revenue is the expenses' share. */
  lemma ExpenseShare(revenue: real, expenses: real)
    requires revenue > 0.0
    ensures 1.0 - (revenue - expenses) / revenue == expenses / revenue
  {
    var share := expenses / revenue;
    assert share * revenue == expenses;
    QuotientUnique(revenue - expenses, revenue, 1.0 - share);
  }

  /** The quotient by a non-zero divisor is the only factor that gives back the dividend. */
  lemma QuotientUnique(x: real, divisor: real, y: real)
    requires divisor != 0.0 && y * divisor == x
    ensures x / divisor == y
  {
    var q := x / divisor;
    assert q * divisor == x;
    assert (q - y) * divisor == 0.0;
  }

  /** A dictionary holding only numbers never makes the heuristic raise. */
  lemma NumbersNeverRaise(features: Features)
    requires forall k :: k in features ==> features[k].Num?
    ensures MockPrediction(features).Ok?
  {
    assert GetOr(features, "activos_totales", 1.0).Num? && GetOr(features, "deuda_total", 0.0).Num?;
    assert GetOr(features, "ingresos", 1.0).Num? && GetOr(features, "gastos", 0.0).Num?;
  }

  /** The features with a different count of active days. */
  function WithActiveDays(features: Features, days: real): Features {
    features["trimestre_dias_actividad" := Num(days)]
  }

  /** Fewer active days, everything else equal, never lowers the heuristic probability. */
  lemma MockInactivityMonotone(features: Features, fewer: real, more: real)
    requires fewer <= more
    requires MockPrediction(WithActiveDays(features, more)).Ok?
    ensures MockPrediction(WithActiveDays(features, fewer)).Ok?
    ensures MockPrediction(WithActiveDays(features, fewer)).value >= MockPrediction(WithActiveDays(features, more)).value
  {
    var lo, hi := WithActiveDays(features, fewer), WithActiveDays(features, more);
    assert GetOr(lo, "deuda_total", 0.0) == GetOr(hi, "deuda_total", 0.0);
    assert GetOr(lo, "activos_totales", 1.0) == GetOr(hi, "activos_totales", 1.0);
    assert GetOr(lo, "ingresos", 1.0) == GetOr(hi, "ingresos", 1.0);
    assert GetOr(lo, "gastos", 0.0) == GetOr(hi, "gastos", 0.0);
    assert DebtRatio(lo) == DebtRatio(hi);
    assert Profitability(lo) == Profitability(hi);
    assert fewer / 90.0 <= more / 90.0;
  }

  /** An empty dictionary reads every default: no debt, full activity, full profitability, so probability 0. */
  lemma MockDefaultsGiveZero()
    ensures MockPrediction(map[]) == Ok(0.0)
  {
    assert DebtRatio(map[]) == Ok(0.0);
    assert ActivityScore(map[]) == Ok(0.0);
    assert Profitability(map[]) == Ok(1.0);
  }

  // ---------------------------------------------------------------------
  // Prediction, clamp and banding
  // ---------------------------------------------------------------------

  /** The risk level for a clamped probability, with inclusive thresholds. */
  function LevelFor(probability: real): (level: RiskLevel)
    ensures level == Alto <==> probability >= 0.7
    ensures level == Medio <==> 0.4 <= probability < 0.7
    ensures level == Bajo <==> probability < 0.4
  {
    if probability >= 0.7 then Alto
    else if probability >= 0.4 then Medio
    else Bajo
  }

  /** The probability the model (trained or heuristic) produced, before the clamp. */
  function RawProbability(model: ChurnModel, features: Features, outcome: ModelOutcome): Result<real, ()> {
    if model.model.Some? then
      (if outcome.Proba? then Ok(outcome.p) else Err(()))
    else
      MockPrediction(features)
  }

  /**
   * A prediction: the clamped probability and its level, or (0.5, Desconocido)
   * when anything raised. With a trained model, `outcome` is what it returned.
   */
  function Predict(model: ChurnModel, features: Features, outcome: ModelOutcome): (r: (real, RiskLevel))
    ensures 0.0 <= r.0 <= 1.0
    ensures RawProbability(model, features, outcome).Err? <==> r.1 == Desconocido
    ensures RawProbability(model, features, outcome).Err? ==> r.0 == 0.5
    ensures RawProbability(model, features, outcome).Ok? ==>
              r.0 == Clamp(RawProbability(model, features, outcome).value) && r.1 == LevelFor(r.0)
  {
    var raw := RawProbability(model, features, outcome);
    if raw.Err? then (0.5, Desconocido)
    else
      var probability := Clamp(raw.value);
      (probability, LevelFor(probability))
  }

  /** Without a trained model, an empty dictionary is predicted as probability 0, level bajo. */
  lemma MockPredictEmpty(model: ChurnModel, outcome: ModelOutcome)
    requires model.model.None?
    ensures Predict(model, map[], outcome) == (0.0, Bajo)
  {
    MockDefaultsGiveZero();
  }

  /** The level name the frontend's band is shown as. */
  function LevelOf(b: ChurnModels.RiskBand): RiskLevel {
    match b
    case Alto => Alto
    case Medio => Medio
    case Bajo => Bajo
  }

  /**
   * The service bands with `>=` and the browser with `>`: the two agree on
   * every probability except the thresholds 0.4 and 0.7 themselves.
   */
  lemma BandingAgreesOffThresholds(p: real)
    ensures LevelFor(p) == LevelOf(PredictionService.Band(p)) <==> p != 0.4 && p != 0.7
  {
  }

  // ---------------------------------------------------------------------
  // Batch
  // ---------------------------------------------------------------------

  /** One row of the batch result. */
  datatype BatchRow = BatchRow(cuit: Option<FeatureValue>, probability: real, risk_level: RiskLevel)

  /** The batch row for one input row. */
  function RowFor(model: ChurnModel, features: Features, outcome: ModelOutcome): (row: BatchRow)
    ensures row.cuit == (if "cuit" in features then Some(features["cuit"]) else None)
    ensures (row.probability, row.risk_level) == Predict(model, features, outcome)
  {
    var r := Predict(model, features, outcome);
    BatchRow(if "cuit" in features then Some(features["cuit"]) else None, r.0, r.1)
  }

  /**
   * Predicts every row; `outcomes[i]` is what the trained model returns for
   * row i. One result row per input row, in input order.
   */
  method BatchPredict(model: ChurnModel, rows: seq<Features>, outcomes: seq<ModelOutcome>)
    returns (predictions: seq<BatchRow>)
    requires |outcomes| == |rows|
    ensures |predictions| == |rows|
    ensures forall i :: 0 <= i < |rows| ==> predictions[i] == RowFor(model, rows[i], outcomes[i])
    ensures forall i :: 0 <= i < |rows| ==> 0.0 <= predictions[i].probability <= 1.0
  {
    predictions := [];
    var k := 0;
    while k < |rows|
      invariant 0 <= k <= |rows|
      invariant |predictions| == k
      invariant forall i :: 0 <= i < k ==> predictions[i] == RowFor(model, rows[i], outcomes[i])
    {
      var features := rows[k];
      var r := Predict(model, features, outcomes[k]);
      predictions := predictions + [BatchRow(if "cuit" in features then Some(features["cuit"]) else None, r.0, r.1)];
      k := k + 1;
    }
  }

  // ---------------------------------------------------------------------
  // Model information
  // ---------------------------------------------------------------------

  /** The reported status: "loaded" for a trained model that is truthy, "mock" otherwise. */
  function ModelStatus(model: ChurnModel): (status: string)
    ensures status == "loaded" <==> model.model.Some? && model.model.value.truthy
    ensures status == "mock" <==> !(model.model.Some? && model.model.value.truthy)
  {
    if model.model.Some? && model.model.value.truthy then "loaded" else "mock"
  }

  /** The reported type: the trained model's type name, or "MockModel". */
  function ModelType(model: ChurnModel): (name: string)
    ensures model.model.None? ==> name == "MockModel"
    ensures model.model.Some? && model.model.value.truthy ==> name == model.model.value.typeName
    ensures model.model.Some? && !model.model.value.truthy ==> name == "MockModel"
    ensures ModelStatus(model) == "mock" ==> name == "MockModel"
  {
    if model.model.Some? && model.model.value.truthy then model.model.value.typeName else "MockModel"
  }
}
