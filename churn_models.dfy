/**
 * The record types the churn-risk scorer consumes and produces, with the
 * invariants their documentation states (service count, day ranges,
 * margin, response band and probability).
 */
module ChurnModels {
  import opened Outcomes

  /** Fixed company data that does not change between quarters. */
  datatype StaticProfile = StaticProfile(
    CUIT: int,
    Nombre_Empresa: string,
    Tipo_Sociedad: string,
    Sector: string,
    Provincia: string,
    Anio_Fundacion: real,
    Empleados: real,
    Telefono: int,
    Direccion: string)

  /** One quarter's financial figures. */
  datatype Financials = Financials(
    Ingresos: real,
    Gastos: real,
    Margen: real,
    Deuda: real,
    Activos: real)
  {
    /** The documented relation: the margin is revenue minus expenses. */
    predicate MarginConsistent() {
      Margen == Ingresos - Gastos
    }
  }

  /** Requests, approvals and standing loans in a quarter. */
  datatype CreditBehavior = CreditBehavior(
    Prestamos_Solicitados: real,
    Prestamos_Aprobados: real,
    Prestamos_Cancelados: real,
    Prestamos_Vigentes: real,
    Ticket_Promedio_Solicitado: real,
    Ticket_Promedio_Aprobado: real,
    Monto_Solicitado: real,
    Monto_Aprobado: real,
    Tiempo_Cancelacion_Prestamo: real)

  /** Platform usage in a quarter. */
  datatype AppEngagement = AppEngagement(
    Trimestre_Dias_Actividad: real,
    Trimestre_Dias_Inactividad: real,
    Promedio_Login_Dia: real,
    Total_Login_Dia: real)
  {
    /** Both day counts lie in 0..90, as documented. */
    predicate DaysInRange() {
      0.0 <= Trimestre_Dias_Actividad <= 90.0 && 0.0 <= Trimestre_Dias_Inactividad <= 90.0
    }
  }

  /** The four service flags and the stored count of those that are set. */
  datatype ServicesFlags = ServicesFlags(
    Transferencias: bool,
    Pagos: bool,
    Creditos: bool,
    Inversiones: bool,
    Servicios_Utilizados: real)
  {
    /** The documented relation: the stored count is the number of set flags. */
    predicate CountConsistent() {
      Servicios_Utilizados == CountFlags(Transferencias, Pagos, Creditos, Inversiones) as real
    }
  }

  /** 1 for a set flag, 0 otherwise. */
  function Indicator(b: bool): int {
    if b then 1 else 0
  }

  /** The number of set flags among four. */
  function CountFlags(transferencias: bool, pagos: bool, creditos: bool, inversiones: bool): (n: int)
    ensures 0 <= n <= 4
    ensures n == 0 <==> !transferencias && !pagos && !creditos && !inversiones
    ensures n == 4 <==> transferencias && pagos && creditos && inversiones
  {
    Indicator(transferencias) + Indicator(pagos) + Indicator(creditos) + Indicator(inversiones)
  }

  /** The metrics of one fiscal quarter. */
  datatype QuarterlyMetrics = QuarterlyMetrics(
    Periodo_Fiscal: string,
    financials: Financials,
    credit_behavior: CreditBehavior,
    app_engagement: AppEngagement,
    services_flags: ServicesFlags)
  {
    /** Every documented invariant of the sub-records. */
    predicate WellFormed() {
      financials.MarginConsistent() && app_engagement.DaysInRange() && services_flags.CountConsistent()
    }
  }

  /** Churn indicator of a company. */
  datatype ChurnStatus = ChurnStatus(Churn: bool, Churn_Date: Option<string>)

  /** One quarter of one company, as the dashboard receives it (the flat record, grouped by part). */
  datatype FlatCompanyRecord = FlatCompanyRecord(
    profile: StaticProfile,
    quarter: QuarterlyMetrics,
    status: ChurnStatus)

  /** The records whose churn flag is `churn`, in their original order (the components' `filter(c => c.Churn)` and its negation). */
  function WithChurn(records: seq<FlatCompanyRecord>, churn: bool): (r: seq<FlatCompanyRecord>)
    ensures |r| <= |records|
    ensures forall x :: x in r <==> x in records && x.status.Churn == churn
  {
    if records == [] then []
    else
      var rest := WithChurn(records[1..], churn);
      assert forall x :: x in records <==> x == records[0] || x in records[1..];
      if records[0].status.Churn == churn then [records[0]] + rest else rest
  }

  /** Every record is either churned or not: the two filters together hold every record once. */
  lemma {:induction false} ChurnSplit(records: seq<FlatCompanyRecord>)
    ensures |WithChurn(records, true)| + |WithChurn(records, false)| == |records|
  {
    if records != [] {
      ChurnSplit(records[1..]);
    }
  }

  /** Filtering a concatenation filters each part and keeps them in order. */
  lemma {:induction false} WithChurnAppend(a: seq<FlatCompanyRecord>, b: seq<FlatCompanyRecord>, churn: bool)
    ensures WithChurn(a + b, churn) == WithChurn(a, churn) + WithChurn(b, churn)
  {
    if a == [] {
      assert a + b == b;
    } else {
      var ab := a + b;
      assert ab[0] == a[0] && ab[1..] == a[1..] + b;
      WithChurnAppend(a[1..], b, churn);
      var restA, restB := WithChurn(a[1..], churn), WithChurn(b, churn);
      var keep := a[0].status.Churn == churn;
      assert WithChurn(ab, churn) == (if keep then [a[0]] + (restA + restB) else restA + restB);
      assert WithChurn(a, churn) == (if keep then [a[0]] + restA else restA);
      ConsAppend(a[0], restA, restB);
    }
  }

  /** Prepending to a concatenation prepends to its first part. */
  lemma ConsAppend<T>(x: T, s: seq<T>, t: seq<T>)
    ensures [x] + s + t == [x] + (s + t)
  {
  }

  /** The test a record passes when its churn flag is `churn`. */
  function ChurnTest(churn: bool): FlatCompanyRecord -> bool {
    (r: FlatCompanyRecord) => r.status.Churn == churn
  }

  /** The positions of the records whose churn flag is `churn`. */
  function ChurnPositions(records: seq<FlatCompanyRecord>, churn: bool): set<int> {
    IndexSet(records, ChurnTest(churn))
  }

  /** The positions whose element passes `p`. */
  function IndexSet<T>(s: seq<T>, p: T -> bool): set<int> {
    set i | 0 <= i < |s| && p(s[i])
  }

  /** The passing positions of a non-empty list: those of its front, plus the last one when it passes. */
  lemma IndexSetSnoc<T>(s: seq<T>, p: T -> bool)
    requires s != []
    ensures |IndexSet(s, p)| == |IndexSet(s[..|s| - 1], p)| + (if p(s[|s| - 1]) then 1 else 0)
  {
    var n := |s| - 1;
    var before := IndexSet(s[..n], p);
    assert before == set i | 0 <= i < n && p(s[i]);
    if p(s[n]) {
      assert IndexSet(s, p) == before + {n};
    } else {
      assert IndexSet(s, p) == before;
    }
  }

  /** The filter keeps one record per matching position, so its length is the number of such positions. */
  lemma {:induction false} WithChurnCounts(records: seq<FlatCompanyRecord>, churn: bool)
    ensures |WithChurn(records, churn)| == |ChurnPositions(records, churn)|
  {
    if records != [] {
      var n := |records| - 1;
      WithChurnCounts(records[..n], churn);
      WithChurnSnoc(records, churn);
      IndexSetSnoc(records, ChurnTest(churn));
    }
  }

  /** Filtering a non-empty list: the filtered front, plus its last record when that one matches. */
  lemma WithChurnSnoc(records: seq<FlatCompanyRecord>, churn: bool)
    requires records != []
    ensures var n := |records| - 1;
            |WithChurn(records, churn)| == |WithChurn(records[..n], churn)| + (if records[n].status.Churn == churn then 1 else 0)
  {
    var n := |records| - 1;
    var last := records[n];
    assert records == records[..n] + [last];
    WithChurnAppend(records[..n], [last], churn);
    assert [last][1..] == [];
  }

  /** The three risk bands a prediction may carry. */
  datatype RiskBand = Alto | Medio | Bajo

  /** The reply of the prediction service; confidence and recommendations are optional. */
  datatype PredictionResponse = PredictionResponse(
    prevision: RiskBand,
    probabilidad: real,
    confidence: Option<real>,
    recomendaciones: Option<seq<string>>)
  {
    /** The documented range of the probability. */
    predicate WellFormed() {
      0.0 <= probabilidad <= 1.0 && (confidence.Some? ==> 0.0 <= confidence.value <= 1.0)
    }
  }
}
