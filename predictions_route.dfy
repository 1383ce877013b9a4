/**
 * The AI service's prediction endpoints: a single prediction, the batch
 * tally by risk level, and the risk-level query's input check.
 */
module PredictionsRoute {
  import opened Outcomes
  import ModelManager

  /** The request body for one company; the optional fields carry their declared defaults when absent. */
  datatype PredictionRequest = PredictionRequest(
    cuit: string,
    ingresos: real,
    gastos: real,
    margen_operativo: real,
    deuda_total: real,
    activos_totales: real,
    prestamos_solicitados: int,
    prestamos_aprobados: int,
    trimestre_dias_actividad: int,
    trimestre_logins_promedio: real,
    transferencias_trimestre: int,
    pagos_trimestre: int,
    creditos_trimestre: int)

  /** The reply for one prediction. */
  datatype PredictionResponse = PredictionResponse(
    cuit: string,
    probability: real,
    risk_level: ModelManager.RiskLevel,
    confidence: real,
    timestamp: string,
    features_used: int)

  /** The reply of the batch endpoint. */
  datatype BatchPredictionResponse = BatchPredictionResponse(
    total_processed: int,
    total_high_risk: int,
    total_medium_risk: int,
    total_low_risk: int,
    predictions: seq<PredictionResponse>,
    timestamp: string)

  /** An HTTP error: status code and detail. */
  datatype HttpError = HttpError(status: int, detail: string)

  /** The request's field names in declaration order: the CUIT, then the configured features. */
  const RequestFields: seq<string> := ["cuit"] + ModelManager.RequiredFeatures

  /** The value of one named request field, numbers widened to reals. */
  function FieldValue(r: PredictionRequest, name: string): (v: ModelManager.FeatureValue)
    requires name in RequestFields
    ensures name == "cuit" <==> v.Text?
  {
    if name == "cuit" then ModelManager.Text(r.cuit)
    else if name == "ingresos" then ModelManager.Num(r.ingresos)
    else if name == "gastos" then ModelManager.Num(r.gastos)
    else if name == "margen_operativo" then ModelManager.Num(r.margen_operativo)
    else if name == "deuda_total" then ModelManager.Num(r.deuda_total)
    else if name == "activos_totales" then ModelManager.Num(r.activos_totales)
    else if name == "prestamos_solicitados" then ModelManager.Num(r.prestamos_solicitados as real)
    else if name == "prestamos_aprobados" then ModelManager.Num(r.prestamos_aprobados as real)
    else if name == "trimestre_dias_actividad" then ModelManager.Num(r.trimestre_dias_actividad as real)
    else if name == "trimestre_logins_promedio" then ModelManager.Num(r.trimestre_logins_promedio)
    else if name == "transferencias_trimestre" then ModelManager.Num(r.transferencias_trimestre as real)
    else if name == "pagos_trimestre" then ModelManager.Num(r.pagos_trimestre as real)
    else ModelManager.Num(r.creditos_trimestre as real)
  }

  /** The dictionary holding the named request fields, built one entry at a time. */
  function DictOf(r: PredictionRequest, names: seq<string>): (d: ModelManager.Features)
    requires forall n :: n in names ==> n in RequestFields
  {
    if names == [] then map[]
    else
      var last := names[|names| - 1];
      DictOf(r, names[..|names| - 1])[last := FieldValue(r, last)]
  }

  /** The dictionary's keys are exactly the names, and each holds its field's value. */
  lemma {:induction false} DictOfEntries(r: PredictionRequest, names: seq<string>)
    requires forall n :: n in names ==> n in RequestFields
    ensures forall n :: n in DictOf(r, names) <==> n in names
    ensures forall n :: n in DictOf(r, names) ==> DictOf(r, names)[n] == FieldValue(r, n)
  {
    if names != [] {
      var prefix := names[..|names| - 1];
      assert forall n :: n in prefix ==> n in names;
      DictOfEntries(r, prefix);
      assert names == prefix + [names[|names| - 1]];
    }
  }

  /** Every request field as a dictionary entry, CUIT included, as the request's `dict()` gives. */
  function RequestDict(r: PredictionRequest): ModelManager.Features {
    DictOf(r, RequestFields)
  }

  /** The features passed to the model: the request's dictionary with the CUIT popped. */
  function FeaturesOf(r: PredictionRequest): (f: ModelManager.Features)
    ensures "cuit" !in f
  {
    RequestDict(r) - {"cuit"}
  }

  /** The popped dictionary holds exactly the configured features, each a number. */
  lemma FeaturesAreRequired(r: PredictionRequest)
    ensures forall k :: k in FeaturesOf(r) <==> k in ModelManager.RequiredFeatures
    ensures forall k :: k in FeaturesOf(r) ==> FeaturesOf(r)[k].Num?
  {
    DictOfEntries(r, RequestFields);
  }

  /** Features built from a request never make the heuristic raise: every value is a number. */
  lemma RequestFeaturesNeverRaise(r: PredictionRequest)
    ensures ModelManager.MockPrediction(FeaturesOf(r)).Ok?
  {
    FeaturesAreRequired(r);
    ModelManager.NumbersNeverRaise(FeaturesOf(r));
  }

  /** The reply for one company: its CUIT, the model's outcome, confidence 0.95 and the feature count. */
  function ResponseFor(model: ModelManager.ChurnModel, r: PredictionRequest, outcome: ModelManager.ModelOutcome,
                       now: string): (resp: PredictionResponse)
    ensures resp.cuit == r.cuit && resp.confidence == 0.95 && resp.timestamp == now
    ensures resp.features_used == |FeaturesOf(r)|
  {
    var features := FeaturesOf(r);
    var (probability, level) := ModelManager.Predict(model, features, outcome);
    PredictionResponse(r.cuit, probability, level, 0.95, now, |features|)
  }

  /** A reply carries a probability in [0, 1] and either the level of that probability or "desconocido". */
  lemma ResponseWellFormed(model: ModelManager.ChurnModel, r: PredictionRequest, outcome: ModelManager.ModelOutcome,
                           now: string)
    ensures var resp := ResponseFor(model, r, outcome, now);
            0.0 <= resp.probability <= 1.0
            && (resp.risk_level == ModelManager.Desconocido || resp.risk_level == ModelManager.LevelFor(resp.probability))
    ensures ResponseFor(model, r, outcome, now).features_used == |ModelManager.RequiredFeatures| == 12
  {
    FeatureCount(r);
  }

  /** The popped dictionary holds twelve entries, one per configured feature. */
  lemma FeatureCount(r: PredictionRequest)
    ensures |FeaturesOf(r)| == |ModelManager.RequiredFeatures| == 12
  {
    FeaturesAreRequired(r);
    RequiredFeaturesDistinct();
    assert FeaturesOf(r).Keys == set k | k in ModelManager.RequiredFeatures;
  }

  /** The twelve configured feature names are pairwise different. */
  lemma RequiredFeaturesDistinct()
    ensures |set k | k in ModelManager.RequiredFeatures| == 12
  {
    var names := ModelManager.RequiredFeatures;
    var lengths := [8, 6, 16, 11, 15, 21, 19, 24, 25, 24, 15, 18];
    assert forall i :: 0 <= i < |names| ==> |names[i]| == lengths[i];
    assert names[4][0] != names[10][0] && names[7][2] != names[9][2];
    DistinctCount(names);
  }

  /** A list without repeats has as many different elements as entries. */
  lemma {:induction false} DistinctCount<T>(s: seq<T>)
    requires forall i, j :: 0 <= i < j < |s| ==> s[i] != s[j]
    ensures |set k | k in s| == |s|
  {
    if s != [] {
      var tail := s[1..];
      DistinctCount(tail);
      assert (set k | k in s) == {s[0]} + (set k | k in tail);
      assert s[0] !in tail;
    }
  }

  /** The single-prediction endpoint; the model never raises, so it always answers. */
  function Predict(model: ModelManager.ChurnModel, r: PredictionRequest, outcome: ModelManager.ModelOutcome,
                   now: string): (resp: PredictionResponse)
    ensures resp.cuit == r.cuit && resp.confidence == 0.95 && resp.features_used == |FeaturesOf(r)|
    ensures (resp.probability, resp.risk_level) == ModelManager.Predict(model, FeaturesOf(r), outcome)
    ensures model.model.None? ==> resp.risk_level != ModelManager.Desconocido
  {
    RequestFeaturesNeverRaise(r);
    ResponseFor(model, r, outcome, now)
  }

  // ---------------------------------------------------------------------
  // Batch
  // ---------------------------------------------------------------------

  /** The levels the batch counter has an entry for: all but "desconocido". */
  predicate Counted(level: ModelManager.RiskLevel) {
    level != ModelManager.Desconocido
  }

  /** The replies of the companies whose level is counted, in input order; the others raise at the counter and are skipped. */
  function Succeeded(model: ModelManager.ChurnModel, companies: seq<PredictionRequest>,
                     outcomes: seq<ModelManager.ModelOutcome>, now: string): (s: seq<PredictionResponse>)
    requires |outcomes| == |companies|
    ensures |s| <= |companies|
  {
    if companies == [] then []
    else
      var n := |companies| - 1;
      var resp := ResponseFor(model, companies[n], outcomes[n], now);
      Succeeded(model, companies[..n], outcomes[..n], now) + (if Counted(resp.risk_level) then [resp] else [])
  }

  /** The number of replies at a given level. */
  function CountLevel(s: seq<PredictionResponse>, level: ModelManager.RiskLevel): (n: nat)
    ensures n <= |s|
  {
    if s == [] then 0
    else CountLevel(s[..|s| - 1], level) + (if s[|s| - 1].risk_level == level then 1 else 0)
  }

  /**
   * The batch endpoint: predicts each company in order, counts it at its level
   * and keeps its reply; a company whose level has no counter entry raises at
   * the counter and is skipped.
   */
  method BatchPredict(model: ModelManager.ChurnModel, companies: seq<PredictionRequest>,
                      outcomes: seq<ModelManager.ModelOutcome>, now: string)
    returns (response: BatchPredictionResponse)
    requires |outcomes| == |companies|
    ensures response.predictions == Succeeded(model, companies, outcomes, now)
    ensures response.total_processed == |response.predictions|
    ensures response.total_high_risk == CountLevel(response.predictions, ModelManager.Alto)
    ensures response.total_medium_risk == CountLevel(response.predictions, ModelManager.Medio)
    ensures response.total_low_risk == CountLevel(response.predictions, ModelManager.Bajo)
    ensures response.timestamp == now
  {
    var predictions: seq<PredictionResponse> := [];
    var riskCounts: map<ModelManager.RiskLevel, int> :=
      map[ModelManager.Alto := 0, ModelManager.Medio := 0, ModelManager.Bajo := 0];
    var k := 0;
    while k < |companies|
      invariant 0 <= k <= |companies|
      invariant predictions == Succeeded(model, companies[..k], outcomes[..k], now)
      invariant forall l :: l in riskCounts <==> Counted(l)
      invariant forall l :: l in riskCounts ==> riskCounts[l] == CountLevel(predictions, l)
    {
      SucceededStep(model, companies, outcomes, now, k);
      var reply := ResponseFor(model, companies[k], outcomes[k], now);
      if reply.risk_level in riskCounts {
        riskCounts := riskCounts[reply.risk_level := riskCounts[reply.risk_level] + 1];
        CountLevelStep(predictions, reply);
        predictions := predictions + [reply];
      }
      k := k + 1;
    }
    assert companies[..k] == companies && outcomes[..k] == outcomes;
    response := BatchPredictionResponse(|predictions|, riskCounts[ModelManager.Alto], riskCounts[ModelManager.Medio],
                                        riskCounts[ModelManager.Bajo],
                                        predictions, now);
  }

  /** One more company extends the kept replies by its own reply, when its level is counted. */
  lemma SucceededStep(model: ModelManager.ChurnModel, companies: seq<PredictionRequest>,
                      outcomes: seq<ModelManager.ModelOutcome>, now: string, k: nat)
    requires |outcomes| == |companies| && k < |companies|
    ensures var resp := ResponseFor(model, companies[k], outcomes[k], now);
            Succeeded(model, companies[..k + 1], outcomes[..k + 1], now)
            == Succeeded(model, companies[..k], outcomes[..k], now) + (if Counted(resp.risk_level) then [resp] else [])
  {
    assert companies[..k + 1][..k] == companies[..k] && outcomes[..k + 1][..k] == outcomes[..k];
  }

  /** Appending a reply adds one to the count of its level only. */
  lemma CountLevelStep(s: seq<PredictionResponse>, x: PredictionResponse)
    ensures forall level :: CountLevel(s + [x], level) == CountLevel(s, level) + (if x.risk_level == level then 1 else 0)
  {
    assert (s + [x])[..|s + [x]| - 1] == s;
  }

  /** Every kept reply is counted at exactly one level, so the three totals add up to the number processed. */
  lemma {:induction false} LevelsPartition(s: seq<PredictionResponse>)
    requires forall i :: 0 <= i < |s| ==> Counted(s[i].risk_level)
    ensures CountLevel(s, ModelManager.Alto) + CountLevel(s, ModelManager.Medio) + CountLevel(s, ModelManager.Bajo) == |s|
  {
    if s != [] {
      LevelsPartition(s[..|s| - 1]);
    }
  }

  /** The batch totals per level always add up to the total processed. */
  lemma BatchTotalsAddUp(model: ModelManager.ChurnModel, companies: seq<PredictionRequest>,
                         outcomes: seq<ModelManager.ModelOutcome>, now: string)
    requires |outcomes| == |companies|
    ensures var s := Succeeded(model, companies, outcomes, now);
            CountLevel(s, ModelManager.Alto) + CountLevel(s, ModelManager.Medio) + CountLevel(s, ModelManager.Bajo) == |s|
  {
    UnknownLevelSkipped(model, companies, outcomes, now);
    LevelsPartition(Succeeded(model, companies, outcomes, now));
  }

  /** Every company's reply, in input order, whether or not its level is counted. */
  function Replies(model: ModelManager.ChurnModel, companies: seq<PredictionRequest>,
                   outcomes: seq<ModelManager.ModelOutcome>, now: string): (s: seq<PredictionResponse>)
    requires |outcomes| == |companies|
    ensures |s| == |companies|
    ensures forall i :: 0 <= i < |s| ==> s[i].cuit == companies[i].cuit
  {
    if companies == [] then []
    else
      var n := |companies| - 1;
      Replies(model, companies[..n], outcomes[..n], now) + [ResponseFor(model, companies[n], outcomes[n], now)]
  }

  /** With the heuristic model nothing raises, so every company is kept, in input order. */
  lemma {:induction false} MockKeepsEveryCompany(model: ModelManager.ChurnModel, companies: seq<PredictionRequest>,
                                                 outcomes: seq<ModelManager.ModelOutcome>, now: string)
    requires |outcomes| == |companies| && model.model.None?
    ensures Succeeded(model, companies, outcomes, now) == Replies(model, companies, outcomes, now)
  {
    if companies != [] {
      var n := |companies| - 1;
      MockKeepsEveryCompany(model, companies[..n], outcomes[..n], now);
      MockLevelCounted(model, companies[n], outcomes[n], now);
    }
  }

  /** With the heuristic model a company's level is always one the counter has. */
  lemma MockLevelCounted(model: ModelManager.ChurnModel, r: PredictionRequest, outcome: ModelManager.ModelOutcome,
                         now: string)
    requires model.model.None?
    ensures Counted(ResponseFor(model, r, outcome, now).risk_level)
  {
    RequestFeaturesNeverRaise(r);
  }

  /** A company whose prediction raised (level "desconocido") is left out of the replies. */
  lemma {:induction false} UnknownLevelSkipped(model: ModelManager.ChurnModel, companies: seq<PredictionRequest>,
                            outcomes: seq<ModelManager.ModelOutcome>, now: string)
    requires |outcomes| == |companies|
    ensures forall r :: r in Succeeded(model, companies, outcomes, now) ==> r.risk_level != ModelManager.Desconocido
  {
    if companies != [] {
      var n := |companies| - 1;
      UnknownLevelSkipped(model, companies[..n], outcomes[..n], now);
    }
  }

  // ---------------------------------------------------------------------
  // Query by risk level
  // ---------------------------------------------------------------------

  /** The placeholder reply of the risk-level query. */
  datatype RiskLevelReply = RiskLevelReply(risk_level: string, message: string, note: string)

  /** The risk-level query: 400 for any level other than alto, medio or bajo. */
  function GetByRiskLevel(riskLevel: string): (r: Result<RiskLevelReply, HttpError>)
    ensures r.Err? <==> riskLevel != "alto" && riskLevel != "medio" && riskLevel != "bajo"
    ensures r.Err? ==> r.error.status == 400
    ensures r.Ok? ==> r.value.risk_level == riskLevel
  {
    if !(riskLevel in ["alto", "medio", "bajo"]) then
      Err(HttpError(400, "risk_level debe ser: " + "alto, medio o bajo"))
    else
      Ok(RiskLevelReply(riskLevel, "Endpoint para obtener " + "predicciones de riesgo " + riskLevel,
                        "Conectar a Oracle para " + "obtener datos reales"))
  }
}
