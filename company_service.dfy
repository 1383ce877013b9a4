/**
 * The backend's company service: the company DTO mapping, the list and page
 * queries, the churn statistics of a sector, the high-risk filter, the
 * latest fiscal period and the lookup by CUIT.
 *
 * Repository results are inputs: the rows a query returned, in the order it
 * returned them. The current year is a parameter.
 */
module CompanyService {
  import opened Outcomes
  import opened BigDecimals
  import opened CompanyEntity

  /** The company as the service returns it: the stored columns plus the derived metrics. */
  datatype CompanyResponse = CompanyResponse(
    cuit: string,
    nombreEmpresa: string,
    tipoSociedad: Option<string>,
    sector: Option<string>,
    provincia: Option<string>,
    anoFundacion: Option<int>,
    empleados: Option<int>,
    telefono: Option<string>,
    direccion: Option<string>,
    periodoFiscal: string,
    ingresos: Option<Decimal>,
    gastos: Option<Decimal>,
    margen: Option<Decimal>,
    deuda: Option<Decimal>,
    activos: Option<Decimal>,
    prestamosSolicitados: Option<int>,
    prestamosAprobados: Option<int>,
    prestamosCancelados: Option<int>,
    prestamosVigentes: Option<int>,
    churn: Option<int>,
    churnDate: Option<Date>,
    companyAgeRange: string,
    debtToEquityRatio: Decimal,
    operatingMarginPercent: Decimal,
    loanApprovalRate: Decimal)

  /** The stored columns of a response, as they were in the company. */
  predicate CopiesColumns(c: Company, d: CompanyResponse) {
    && d.cuit == c.cuit && d.nombreEmpresa == c.nombreEmpresa && d.tipoSociedad == c.tipoSociedad
    && d.sector == c.sector && d.provincia == c.provincia && d.anoFundacion == c.anoFundacion
    && d.empleados == c.empleados && d.telefono == c.telefono && d.direccion == c.direccion
    && d.periodoFiscal == c.periodoFiscal && d.ingresos == c.ingresos && d.gastos == c.gastos
    && d.margen == c.margen && d.deuda == c.deuda && d.activos == c.activos
    && d.prestamosSolicitados == c.prestamosSolicitados && d.prestamosAprobados == c.prestamosAprobados
    && d.prestamosCancelados == c.prestamosCancelados && d.prestamosVigentes == c.prestamosVigentes
    && d.churn == c.churn && d.churnDate == c.churnDate
  }

  /**
   * The DTO mapping: copies the columns and computes the age range and the
   * three metrics, in that order; the first metric that throws aborts it.
   */
  function MapToDTO(c: Company, currentYear: int): (r: Result<CompanyResponse, JavaException>)
    ensures r.Ok? <==> DebtToEquityRatio(c).Ok? && OperatingMarginPercent(c).Ok? && LoanApprovalRate(c).Ok?
    ensures r.Err? ==> r.error == NullPointerException
    ensures r.Ok? ==> CopiesColumns(c, r.value)
    ensures r.Ok? ==> r.value.companyAgeRange == CompanyAgeRange(c, currentYear).Name()
    ensures r.Ok? ==> r.value.debtToEquityRatio == DebtToEquityRatio(c).value
                      && r.value.operatingMarginPercent == OperatingMarginPercent(c).value
                      && r.value.loanApprovalRate == LoanApprovalRate(c).value
  {
    var ageRange := CompanyAgeRange(c, currentYear).Name();
    match DebtToEquityRatio(c)
    case Err(e) => Err(e)
    case Ok(debt) =>
      match OperatingMarginPercent(c)
      case Err(e) => Err(e)
      case Ok(margin) =>
        match LoanApprovalRate(c)
        case Err(e) => Err(e)
        case Ok(approval) =>
          Ok(CompanyResponse(c.cuit, c.nombreEmpresa, c.tipoSociedad, c.sector, c.provincia, c.anoFundacion,
                             c.empleados, c.telefono, c.direccion, c.periodoFiscal, c.ingresos, c.gastos, c.margen,
                             c.deuda, c.activos, c.prestamosSolicitados, c.prestamosAprobados,
                             c.prestamosCancelados, c.prestamosVigentes, c.churn, c.churnDate, ageRange, debt,
                             margin, approval))
  }

  /** A company with every column the metrics divide by or into present always maps. */
  lemma CompleteCompanyMaps(c: Company, currentYear: int)
    requires c.deuda.Some? && c.margen.Some? && c.prestamosAprobados.Some?
    ensures MapToDTO(c, currentYear).Ok?
  {
  }

  /** Whether every row maps. */
  predicate AllMap(rows: seq<Company>, currentYear: int) {
    forall i :: 0 <= i < |rows| ==> MapToDTO(rows[i], currentYear).Ok?
  }

  /** A list query's result: every row mapped, in order; the first row that throws aborts it. */
  function MapAll(rows: seq<Company>, currentYear: int): (r: Result<seq<CompanyResponse>, JavaException>)
    ensures r.Ok? <==> AllMap(rows, currentYear)
    ensures r.Err? ==> r.error == NullPointerException
    ensures r.Ok? ==> |r.value| == |rows|
    ensures r.Ok? ==> forall i :: 0 <= i < |rows| ==> r.value[i] == MapToDTO(rows[i], currentYear).value
  {
    if rows == [] then Ok([])
    else
      match MapToDTO(rows[0], currentYear)
      case Err(e) => Err(e)
      case Ok(first) =>
        match MapAll(rows[1..], currentYear)
        case Err(e) =>
          assert !AllMap(rows, currentYear) by {
            var i :| 0 <= i < |rows[1..]| && MapToDTO(rows[1..][i], currentYear).Err?;
            assert rows[i + 1] == rows[1..][i];
          }
          Err(e)
        case Ok(rest) =>
          assert AllMap(rows, currentYear) by {
            forall i | 0 <= i < |rows| ensures MapToDTO(rows[i], currentYear).Ok? {
              if i > 0 { assert rows[i] == rows[1..][i - 1]; }
            }
          }
          Ok([first] + rest)
  }

  /** One page of a paginated query: its rows and the total the query reports. */
  datatype Page<T> = Page(content: seq<T>, totalElements: int)

  /** A paginated query's result: the page's rows mapped, the total passed through. */
  function MapPage(page: Page<Company>, currentYear: int): (r: Result<Page<CompanyResponse>, JavaException>)
    ensures r.Ok? <==> AllMap(page.content, currentYear)
    ensures r.Ok? ==> r.value.totalElements == page.totalElements
    ensures r.Ok? ==> Ok(r.value.content) == MapAll(page.content, currentYear)
  {
    match MapAll(page.content, currentYear)
    case Err(e) => Err(e)
    case Ok(content) => Ok(Page(content, page.totalElements))
  }

  // ---------------------------------------------------------------------
  // Churn statistics
  // ---------------------------------------------------------------------

  /** The churn statistics of one sector. */
  datatype ChurnStatistics = ChurnStatistics(sector: string, totalCompanies: int, churnedCompanies: int,
                                             activeCompanies: int, churnRate: real)

  /** The number of elements that satisfy `p`, counted from the back. */
  function Count<T>(s: seq<T>, p: T -> bool): (n: nat)
    ensures n <= |s|
  {
    if s == [] then 0 else Count(s[..|s| - 1], p) + (if p(s[|s| - 1]) then 1 else 0)
  }

  /** A row that has churned. */
  predicate HasChurned(c: Company) {
    c.churn == Some(1)
  }

  /** A row that has not churned. */
  predicate StillActive(c: Company) {
    c.churn == Some(0)
  }

  /** The number of rows with churn 1. */
  function Churned(rows: seq<Company>): (n: nat)
    ensures n <= |rows|
  {
    Count(rows, HasChurned)
  }

  /** Whether some row has no churn value (its comparison with 1 throws). */
  predicate SomeChurnNull(rows: seq<Company>) {
    exists i :: 0 <= i < |rows| && rows[i].churn.None?
  }

  /**
   * The sector statistics: total, churned, active = total - churned, and the
   * churn rate in percent, zero for an empty sector. A row without churn
   * value throws.
   */
  function ChurnStatisticsBySector(sector: string, rows: seq<Company>): (r: Result<ChurnStatistics, JavaException>)
    ensures r.Err? <==> SomeChurnNull(rows)
    ensures r.Err? ==> r.error == NullPointerException
    ensures r.Ok? ==> r.value.sector == sector && r.value.totalCompanies == |rows|
    ensures r.Ok? ==> 0 <= r.value.churnedCompanies <= r.value.totalCompanies
    ensures r.Ok? ==> r.value.activeCompanies == r.value.totalCompanies - r.value.churnedCompanies
    ensures r.Ok? ==> 0.0 <= r.value.churnRate <= 100.0
    ensures r.Ok? && rows == [] ==> r.value.churnRate == 0.0
    ensures r.Ok? ==> r.value.churnedCompanies == |set i | 0 <= i < |rows| && rows[i].churn == Some(1)|
    ensures r.Ok? && rows != [] ==> r.value.churnRate == r.value.churnedCompanies as real / |rows| as real * 100.0
  {
    if SomeChurnNull(rows) then Err(NullPointerException)
    else
      var churned := Churned(rows);
      ChurnedCountsRows(rows);
      var total := |rows|;
      var rate := if total > 0 then churned as real / total as real * 100.0 else 0.0;
      RateBounds(churned, total);
      Ok(ChurnStatistics(sector, total, churned, total - churned, rate))
  }

  /** A part of a whole, in percent, lies in [0, 100]. */
  lemma RateBounds(part: nat, whole: nat)
    requires part <= whole
    ensures whole > 0 ==> 0.0 <= part as real / whole as real * 100.0 <= 100.0
  {
    if whole > 0 {
      assert part as real / whole as real <= 1.0;
    }
  }

  /** The positions whose element satisfies `p`. */
  function Positions<T>(s: seq<T>, p: T -> bool): set<int> {
    set i | 0 <= i < |s| && p(s[i])
  }

  /** A count is the number of positions whose element satisfies `p`. */
  lemma {:induction false} CountIsCardinality<T>(s: seq<T>, p: T -> bool)
    ensures Count(s, p) == |Positions(s, p)|
  {
    if s != [] {
      var n := |s| - 1;
      CountIsCardinality(s[..n], p);
      var before := set i | 0 <= i < n && p(s[..n][i]);
      var now := set i | 0 <= i < |s| && p(s[i]);
      assert before == set i | 0 <= i < n && p(s[i]);
      if p(s[n]) {
        assert now == before + {n};
      } else {
        assert now == before;
      }
    }
  }

  /** When every element satisfies exactly one of `p` and `q`, their counts add up to the length. */
  lemma {:induction false} CountComplement<T>(s: seq<T>, p: T -> bool, q: T -> bool)
    requires forall i :: 0 <= i < |s| ==> p(s[i]) != q(s[i])
    ensures Count(s, p) + Count(s, q) == |s|
  {
    if s != [] {
      CountComplement(s[..|s| - 1], p, q);
    }
  }

  /** The churned count is the number of rows with churn 1. */
  lemma ChurnedCountsRows(rows: seq<Company>)
    ensures Churned(rows) == |set i | 0 <= i < |rows| && rows[i].churn == Some(1)|
  {
    var p: Company -> bool := HasChurned;
    CountIsCardinality(rows, p);
    assert Positions(rows, p) == set i | 0 <= i < |rows| && rows[i].churn == Some(1);
  }

  /** When every row's churn is 0 or 1, the active companies are exactly those with churn 0. */
  lemma ActiveAreChurnZero(rows: seq<Company>)
    requires forall i :: 0 <= i < |rows| ==> rows[i].churn == Some(0) || rows[i].churn == Some(1)
    ensures |rows| - Churned(rows) == |set i | 0 <= i < |rows| && rows[i].churn == Some(0)|
  {
    var p: Company -> bool, q: Company -> bool := HasChurned, StillActive;
    CountComplement(rows, p, q);
    CountIsCardinality(rows, q);
    assert Positions(rows, q) == set i | 0 <= i < |rows| && rows[i].churn == Some(0);
  }

  // ---------------------------------------------------------------------
  // High-risk companies
  // ---------------------------------------------------------------------

  /** 0.30, the debt ratio above which debt counts as high. */
  const HighDebtThreshold: Decimal := Decimal(30, 2)

  /** The high-risk test: debt ratio above 0.30 and fewer than 30 known active days; the ratio may throw. */
  function IsHighRisk(c: Company): (r: Result<bool, JavaException>)
    ensures r.Err? <==> DebtToEquityRatio(c).Err?
    ensures r.Ok? ==> (r.value <==> CompareTo(DebtToEquityRatio(c).value, HighDebtThreshold) > 0
                                    && c.trimestreDiasActividad.Some? && c.trimestreDiasActividad.value < 30)
  {
    match DebtToEquityRatio(c)
    case Err(e) => Err(e)
    case Ok(debtRatio) =>
      var highDebt := CompareTo(debtRatio, HighDebtThreshold) > 0;
      var lowActivity := c.trimestreDiasActividad.Some? && c.trimestreDiasActividad.value < 30;
      Ok(highDebt && lowActivity)
  }

  /**
   * The high-risk test and the quarterly activity flag: a company without
   * recorded activity days is inactive and never high risk; a high-risk
   * company is active exactly when it had between 1 and 29 active days.
   */
  lemma ActivityVersusHighRisk(c: Company)
    ensures c.trimestreDiasActividad.None? ==> !IsActiveThisQuarter(c) && IsHighRisk(c) != Ok(true)
    ensures IsHighRisk(c) == Ok(true) ==> (IsActiveThisQuarter(c) <==> 0 < c.trimestreDiasActividad.value < 30)
  {
  }

  /** A stream filter whose test may throw: the passing rows in order; the first test that throws aborts it. */
  function Keep<T>(rows: seq<T>, test: T -> Result<bool, JavaException>): (r: Result<seq<T>, JavaException>)
    ensures r.Ok? ==> |r.value| <= |rows|
  {
    if rows == [] then Ok([])
    else
      match test(rows[0])
      case Err(e) => Err(e)
      case Ok(pass) =>
        match Keep(rows[1..], test)
        case Err(e) => Err(e)
        case Ok(rest) => Ok(if pass then [rows[0]] + rest else rest)
  }

  /** The filter throws exactly when some row's test throws, and otherwise keeps exactly the passing rows. */
  lemma {:induction false} KeepExact<T>(rows: seq<T>, test: T -> Result<bool, JavaException>)
    ensures Keep(rows, test).Err? <==> exists i :: 0 <= i < |rows| && test(rows[i]).Err?
    ensures Keep(rows, test).Ok? ==> forall x :: x in Keep(rows, test).value <==> x in rows && test(x) == Ok(true)
  {
    if rows != [] {
      KeepExact(rows[1..], test);
      assert forall i :: 1 <= i < |rows| ==> rows[i] == rows[1..][i - 1];
      assert forall x :: x in rows <==> x == rows[0] || x in rows[1..];
    }
  }

  /** Filtering a concatenation filters each part and keeps them in order. */
  lemma {:induction false} KeepAppend<T>(a: seq<T>, b: seq<T>, test: T -> Result<bool, JavaException>)
    requires Keep(a, test).Ok? && Keep(b, test).Ok?
    ensures Keep(a + b, test) == Ok(Keep(a, test).value + Keep(b, test).value)
  {
    if a == [] {
      assert a + b == b;
      assert Keep(a, test).value == [];
      assert [] + Keep(b, test).value == Keep(b, test).value;
    } else {
      var ab := a + b;
      assert ab[0] == a[0] && ab[1..] == a[1..] + b;
      KeepAppend(a[1..], b, test);
      var restA, restB := Keep(a[1..], test).value, Keep(b, test).value;
      assert Keep(ab[1..], test) == Ok(restA + restB);
      var pass := test(a[0]).value;
      assert Keep(ab, test) == Ok(if pass then [a[0]] + (restA + restB) else restA + restB);
      assert Keep(a, test) == Ok(if pass then [a[0]] + restA else restA);
      assert [a[0]] + restA + restB == [a[0]] + (restA + restB);
    }
  }

  /** The rows that pass the high-risk test, in their original order. */
  function HighRiskFilter(rows: seq<Company>): (r: Result<seq<Company>, JavaException>)
    ensures r.Err? <==> exists i :: 0 <= i < |rows| && IsHighRisk(rows[i]).Err?
    ensures r.Ok? ==> forall c :: c in r.value <==> c in rows && IsHighRisk(c) == Ok(true)
  {
    KeepExact(rows, IsHighRisk);
    Keep(rows, IsHighRisk)
  }

  /** The high-risk rows of two batches are those of the first followed by those of the second. */
  lemma HighRiskFilterAppend(a: seq<Company>, b: seq<Company>)
    requires HighRiskFilter(a).Ok? && HighRiskFilter(b).Ok?
    ensures HighRiskFilter(a + b) == Ok(HighRiskFilter(a).value + HighRiskFilter(b).value)
  {
    KeepAppend(a, b, IsHighRisk);
  }

  /**
   * The high-risk companies of a period, as the stream runs: row by row, the
   * test and then, for a row that passes, the mapping; the first exception
   * aborts it.
   */
  function HighRiskCompanies(rows: seq<Company>, currentYear: int): (r: Result<seq<CompanyResponse>, JavaException>)
    ensures r.Err? ==> r.error == NullPointerException
    ensures r.Ok? ==> |r.value| <= |rows|
  {
    if rows == [] then Ok([])
    else
      match IsHighRisk(rows[0])
      case Err(e) => Err(e)
      case Ok(keep) =>
        if !keep then HighRiskCompanies(rows[1..], currentYear)
        else
          match MapToDTO(rows[0], currentYear)
          case Err(e) => Err(e)
          case Ok(first) =>
            match HighRiskCompanies(rows[1..], currentYear)
            case Err(e) => Err(e)
            case Ok(rest) => Ok([first] + rest)
  }

  /**
   * Running the stream row by row gives what filtering every row first and
   * then mapping the survivors gives: every exception on the way is the
   * same `NullPointerException`, so which row throws first does not matter.
   */
  lemma {:induction false} HighRiskIsFilterThenMap(rows: seq<Company>, currentYear: int)
    ensures HighRiskCompanies(rows, currentYear)
            == if HighRiskFilter(rows).Err? then Err(NullPointerException)
               else MapAll(HighRiskFilter(rows).value, currentYear)
  {
    if rows != [] {
      HighRiskIsFilterThenMap(rows[1..], currentYear);
      var kept := Keep(rows[1..], IsHighRisk);
      if IsHighRisk(rows[0]) == Ok(true) && kept.Ok? {
        assert ([rows[0]] + kept.value)[1..] == kept.value;
      }
    }
  }

  /** A mapped list holds exactly the mappings of its rows. */
  lemma MapAllMembers(rows: seq<Company>, currentYear: int, d: CompanyResponse)
    requires MapAll(rows, currentYear).Ok?
    ensures d in MapAll(rows, currentYear).value <==> exists c :: c in rows && MapToDTO(c, currentYear) == Ok(d)
  {
    var mapped := MapAll(rows, currentYear).value;
    if d in mapped {
      var i :| 0 <= i < |mapped| && mapped[i] == d;
      assert rows[i] in rows && MapToDTO(rows[i], currentYear) == Ok(d);
    }
    if c :| c in rows && MapToDTO(c, currentYear) == Ok(d) {
      var i :| 0 <= i < |rows| && rows[i] == c;
      assert mapped[i] == d;
    }
  }

  /**
   * The high-risk companies succeed exactly when no test and no mapping of a
   * high-risk row throws, and then hold exactly the mappings of the rows
   * with debt ratio above 0.30 and fewer than 30 active days.
   */
  lemma HighRiskCompaniesExact(rows: seq<Company>, currentYear: int, d: CompanyResponse)
    ensures HighRiskCompanies(rows, currentYear).Ok?
            <==> HighRiskFilter(rows).Ok? && AllMap(HighRiskFilter(rows).value, currentYear)
    ensures HighRiskCompanies(rows, currentYear).Ok? ==>
              (d in HighRiskCompanies(rows, currentYear).value
               <==> exists c :: c in rows && IsHighRisk(c) == Ok(true) && MapToDTO(c, currentYear) == Ok(d))
  {
    HighRiskIsFilterThenMap(rows, currentYear);
    if HighRiskCompanies(rows, currentYear).Ok? {
      MapAllMembers(HighRiskFilter(rows).value, currentYear, d);
    }
  }

  // ---------------------------------------------------------------------
  // Single lookups
  // ---------------------------------------------------------------------

  /** The latest fiscal period the repository reports, or "2024-Q4" when it has none. */
  function LatestPeriodoFiscal(latest: Option<string>): (p: string)
    ensures latest.Some? ==> p == latest.value
    ensures latest.None? ==> p == "2024-Q4"
  {
    latest.GetOr("2024-Q4")
  }

  /** The first row with the given CUIT, if any. */
  function FindById(rows: seq<Company>, cuit: string): (r: Option<Company>)
    ensures r.Some? ==> r.value in rows && r.value.cuit == cuit
    ensures r.None? <==> forall i :: 0 <= i < |rows| ==> rows[i].cuit != cuit
    ensures forall i :: 0 <= i < |rows| && rows[i].cuit == cuit && (forall j :: 0 <= j < i ==> rows[j].cuit != cuit)
                        ==> r == Some(rows[i])
  {
    if rows == [] then None
    else if rows[0].cuit == cuit then Some(rows[0])
    else
      var r := FindById(rows[1..], cuit);
      assert forall i :: 1 <= i < |rows| ==> rows[i] == rows[1..][i - 1];
      r
  }

  /** The not-found message of the lookup. */
  function NotFound(cuit: string): string {
    "Empresa no encontrada: " + cuit
  }

  /** The lookup by CUIT: the company's DTO, or a runtime exception naming the CUIT when it is absent. */
  function CompanyByCuit(rows: seq<Company>, cuit: string, currentYear: int)
    : (r: Result<CompanyResponse, JavaException>)
    ensures r == Err(RuntimeException(NotFound(cuit))) <==> forall i :: 0 <= i < |rows| ==> rows[i].cuit != cuit
    ensures r.Ok? ==> r.value.cuit == cuit
    ensures r.Ok? ==> exists i :: 0 <= i < |rows| && r == MapToDTO(rows[i], currentYear)
    ensures forall i :: 0 <= i < |rows| && rows[i].cuit == cuit && (forall j :: 0 <= j < i ==> rows[j].cuit != cuit)
                        ==> r == MapToDTO(rows[i], currentYear)
    ensures (exists i :: 0 <= i < |rows| && rows[i].cuit == cuit) ==> r.Err? ==> r.error == NullPointerException
  {
    match FindById(rows, cuit)
    case None => Err(RuntimeException(NotFound(cuit)))
    case Some(c) => MapToDTO(c, currentYear)
  }
}
