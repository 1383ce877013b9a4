/**
 * The company record of the backend and its derived metrics: debt-to-equity
 * ratio, operating margin, loan approval rate, quarterly activity and the
 * age range.
 *
 * The current year is a parameter.
 */
module CompanyEntity {
  import opened Outcomes
  import opened BigDecimals

  /** A calendar date, kept as it is stored. */
  datatype Date = Date(year: int, month: int, day: int)

  /**
   * The columns of a company the derived metrics and the DTO mapping read;
   * every nullable column is an `Option`.
   */
  datatype Company = Company(
    cuit: string,
    nombreEmpresa: string,
    tipoSociedad: Option<string>,
    sector: Option<string>,
    provincia: Option<string>,
    anoFundacion: Option<int>,
    empleados: Option<int>,
    telefono: Option<string>,
    direccion: Option<string>,
    periodoFiscal: string,
    ingresos: Option<Decimal>,
    gastos: Option<Decimal>,
    margen: Option<Decimal>,
    deuda: Option<Decimal>,
    activos: Option<Decimal>,
    prestamosSolicitados: Option<int>,
    prestamosAprobados: Option<int>,
    prestamosCancelados: Option<int>,
    prestamosVigentes: Option<int>,
    trimestreDiasActividad: Option<int>,
    churn: Option<int>,
    churnDate: Option<Date>)

  // ---------------------------------------------------------------------
  // Guarded quotients
  // ---------------------------------------------------------------------

  /**
   * `num.divide(den, 4, HALF_UP)` behind the guard as the entity writes it:
   * zero when `den` is null or `equals(BigDecimal.ZERO)`. Because `equals`
   * also compares the scale, a zero written as 0.00 passes the guard.
   */
  function GuardedQuotientAsWritten(num: Option<Decimal>, den: Option<Decimal>): (r: Result<Decimal, JavaException>)
    ensures den.None? || Equals(den.value, Zero) ==> r == Ok(Zero)
    ensures r.Err? <==> den.Some? && !Equals(den.value, Zero) && (num.None? || IsZero(den.value))
    ensures den.Some? && !Equals(den.value, Zero) && num.None? ==> r == Err(NullPointerException)
    ensures den.Some? && !Equals(den.value, Zero) && num.Some? ==> r == Divide(num.value, den.value, 4)
  {
    if den.None? || Equals(den.value, Zero) then Ok(Zero)
    else if num.None? then Err(NullPointerException)
    else Divide(num.value, den.value, 4)
  }

  /**
   * The guard as evidently intended: zero when `den` is null or has the value
   * zero at any scale, so the division never throws.
   */
  function GuardedQuotient(num: Option<Decimal>, den: Option<Decimal>): (r: Result<Decimal, JavaException>)
    ensures den.None? || IsZero(den.value) ==> r == Ok(Zero)
    ensures r.Err? <==> den.Some? && !IsZero(den.value) && num.None?
    ensures r.Err? ==> r.error == NullPointerException
    ensures r.Ok? && den.Some? && !IsZero(den.value) ==>
              num.Some? && r.value.scale == 4
              && RoundsHalfUp(r.value.unscaled, QuotientNumerator(num.value, den.value, 4),
                              QuotientDenominator(num.value, den.value))
  {
    if den.None? || IsZero(den.value) then Ok(Zero)
    else if num.None? then Err(NullPointerException)
    else Divide(num.value, den.value, 4)
  }

  /** The written guard and the intended one disagree exactly on a zero divisor written at a positive scale. */
  lemma GuardGap(num: Option<Decimal>, den: Option<Decimal>)
    ensures GuardedQuotientAsWritten(num, den) != GuardedQuotient(num, den)
            <==> den.Some? && IsZero(den.value) && den.value.scale > 0
    ensures den.Some? && IsZero(den.value) && den.value.scale > 0 ==> GuardedQuotientAsWritten(num, den).Err?
  {
  }

  /** Elsewhere they agree: wherever the written guard does not throw, it gives the intended value. */
  lemma GuardAgreesWhenNoThrow(num: Option<Decimal>, den: Option<Decimal>)
    ensures GuardedQuotientAsWritten(num, den).Ok? ==> GuardedQuotientAsWritten(num, den) == GuardedQuotient(num, den)
  {
    GuardGap(num, den);
  }

  // ---------------------------------------------------------------------
  // Derived metrics
  // ---------------------------------------------------------------------

  /** The debt-to-equity ratio with the guard as written. */
  function DebtToEquityRatioAsWritten(c: Company): (r: Result<Decimal, JavaException>)
    ensures r.Err? <==> c.activos.Some? && !Equals(c.activos.value, Zero) && (c.deuda.None? || IsZero(c.activos.value))
    ensures c.activos.Some? && IsZero(c.activos.value) && c.activos.value.scale > 0 ==> r.Err?
  {
    GuardedQuotientAsWritten(c.deuda, c.activos)
  }

  /** Assets stored as 0.00 make the written ratio throw, where the intended one gives zero. */
  lemma ZeroAssetsThrow(c: Company)
    requires c.activos == Some(Decimal(0, 2)) && c.deuda.Some?
    ensures DebtToEquityRatioAsWritten(c) == Err(ArithmeticException)
    ensures DebtToEquityRatio(c) == Ok(Zero)
  {
  }

  /** The debt-to-equity ratio: debt over assets to 4 places HALF_UP, zero without assets. */
  function DebtToEquityRatio(c: Company): (r: Result<Decimal, JavaException>)
    ensures c.activos.None? || IsZero(c.activos.value) ==> r == Ok(Zero)
    ensures r.Err? <==> c.activos.Some? && !IsZero(c.activos.value) && c.deuda.None?
    ensures r.Err? ==> r.error == NullPointerException
    ensures r.Ok? && c.activos.Some? && !IsZero(c.activos.value) ==>
              r == Divide(c.deuda.value, c.activos.value, 4)
  {
    GuardedQuotient(c.deuda, c.activos)
  }

  /** One hundred, as `new BigDecimal(100)`. */
  const Hundred: Decimal := OfInt(100)

  /** The operating margin percentage with the guard as written. */
  function OperatingMarginPercentAsWritten(c: Company): (r: Result<Decimal, JavaException>)
    ensures r.Err? <==> GuardedQuotientAsWritten(c.margen, c.ingresos).Err?
  {
    match GuardedQuotientAsWritten(c.margen, c.ingresos)
    case Err(e) => Err(e)
    case Ok(q) => if c.ingresos.None? || Equals(c.ingresos.value, Zero) then Ok(Zero) else Ok(Multiply(q, Hundred))
  }

  /** Revenue stored as 0.00 makes the written margin throw, where the intended one gives zero. */
  lemma ZeroRevenueThrows(c: Company)
    requires c.ingresos == Some(Decimal(0, 2)) && c.margen.Some?
    ensures OperatingMarginPercentAsWritten(c) == Err(ArithmeticException)
    ensures OperatingMarginPercent(c) == Ok(Zero)
  {
  }

  /** The operating margin percentage: margin over revenue to 4 places HALF_UP, times 100; zero without revenue. */
  function OperatingMarginPercent(c: Company): (r: Result<Decimal, JavaException>)
    ensures c.ingresos.None? || IsZero(c.ingresos.value) ==> r == Ok(Zero)
    ensures r.Err? <==> c.ingresos.Some? && !IsZero(c.ingresos.value) && c.margen.None?
    ensures r.Ok? && c.ingresos.Some? && !IsZero(c.ingresos.value) ==>
              r.value.scale == 4
              && r.value.unscaled == 100 * Divide(c.margen.value, c.ingresos.value, 4).value.unscaled
  {
    match GuardedQuotient(c.margen, c.ingresos)
    case Err(e) => Err(e)
    case Ok(q) => if c.ingresos.None? || IsZero(c.ingresos.value) then Ok(Zero) else Ok(Multiply(q, Hundred))
  }

  /** The loan approval rate: approved over requested to 4 places HALF_UP, times 100; zero without requests. */
  function LoanApprovalRate(c: Company): (r: Result<Decimal, JavaException>)
    ensures c.prestamosSolicitados.None? || c.prestamosSolicitados.value == 0 ==> r == Ok(Zero)
    ensures r.Err? <==> c.prestamosSolicitados.Some? && c.prestamosSolicitados.value != 0 && c.prestamosAprobados.None?
    ensures r.Err? ==> r.error == NullPointerException
    ensures r.Ok? && c.prestamosSolicitados.Some? && c.prestamosSolicitados.value != 0 ==>
              var s, a := c.prestamosSolicitados.value, c.prestamosAprobados.value;
              r.value.scale == 4 && r.value.unscaled % 100 == 0
              && RoundsHalfUp(r.value.unscaled / 100, Sign(s) * a * 10000, Abs(s))
  {
    if c.prestamosSolicitados.None? || c.prestamosSolicitados.value == 0 then Ok(Zero)
    else if c.prestamosAprobados.None? then Err(NullPointerException)
    else
      var q := Divide(OfInt(c.prestamosAprobados.value), OfInt(c.prestamosSolicitados.value), 4);
      Ok(Multiply(q.value, Hundred))
  }

  /** With all requested loans approved, the rate is exactly 100.0000. */
  lemma FullApprovalIsHundred(c: Company)
    requires c.prestamosSolicitados.Some? && c.prestamosSolicitados.value != 0
    requires c.prestamosAprobados == c.prestamosSolicitados
    ensures LoanApprovalRate(c) == Ok(Decimal(1000000, 4))
  {
    var s := c.prestamosSolicitados.value;
    assert QuotientNumerator(OfInt(s), OfInt(s), 4) == 10000 * QuotientDenominator(OfInt(s), OfInt(s)) by {
      assert Sign(s) * s == Abs(s);
    }
    DivideExact(OfInt(s), OfInt(s), 4, 10000);
  }

  /** No more approvals than requests gives a rate between 0 and 100. */
  lemma LoanApprovalRateBounds(c: Company)
    requires c.prestamosSolicitados.Some? && c.prestamosAprobados.Some?
    requires 0 <= c.prestamosAprobados.value <= c.prestamosSolicitados.value
    ensures LoanApprovalRate(c).Ok?
    ensures 0 <= LoanApprovalRate(c).value.unscaled <= 1000000
  {
    var s, a := c.prestamosSolicitados.value, c.prestamosAprobados.value;
    if s != 0 {
      var q := LoanApprovalRate(c).value.unscaled / 100;
      assert RoundsHalfUp(q, a * 10000, s);
      RoundedBetween(q, a * 10000, s, 10000);
    }
  }

  /** A HALF_UP rounding of `n / d` with `0 <= n <= d * top` lies in `[0, top]`. */
  lemma RoundedBetween(q: int, n: int, d: int, top: nat)
    requires d > 0 && 0 <= n <= d * top && RoundsHalfUp(q, n, d)
    ensures 0 <= q <= top
  {
    if q < 0 {
      MultiplyBelow(d, q, -1);
    }
    if q > top {
      MultiplyBelow(d, top + 1, q);
    }
  }

  lemma MultiplyBelow(d: int, x: int, y: int)
    requires d > 0 && x <= y
    ensures d * x <= d * y
  {
    assert d * y - d * x == d * (y - x);
  }

  /** Active in the quarter: a known, positive number of active days. */
  predicate IsActiveThisQuarter(c: Company) {
    c.trimestreDiasActividad.Some? && c.trimestreDiasActividad.value > 0
  }

  // ---------------------------------------------------------------------
  // Age range
  // ---------------------------------------------------------------------

  /** The age ranges a company falls in, written as the backend reports them. */
  datatype AgeRange = Unknown | Startup | Young | Established | Mature
  {
    function Name(): string {
      match this
      case Unknown => "UNKNOWN"
      case Startup => "STARTUP"
      case Young => "YOUNG"
      case Established => "ESTABLISHED"
      case Mature => "MATURE"
    }

    /** The order of the known ranges, youngest first. */
    function Rank(): int {
      match this
      case Unknown => -1
      case Startup => 0
      case Young => 1
      case Established => 2
      case Mature => 3
    }
  }

  /** The age range from the founding year: under 2 years, under 5, under 10, or older. */
  function CompanyAgeRange(c: Company, currentYear: int): (r: AgeRange)
    ensures r == Unknown <==> c.anoFundacion.None?
    ensures c.anoFundacion.Some? ==>
              var age := currentYear - c.anoFundacion.value;
              && (r == Startup <==> age < 2)
              && (r == Young <==> 2 <= age < 5)
              && (r == Established <==> 5 <= age < 10)
              && (r == Mature <==> 10 <= age)
  {
    if c.anoFundacion.None? then Unknown
    else
      var age := currentYear - c.anoFundacion.value;
      if age < 2 then Startup
      else if age < 5 then Young
      else if age < 10 then Established
      else Mature
  }

  /** An older company never falls in a younger range. */
  lemma AgeRangeMonotone(c1: Company, c2: Company, currentYear: int)
    requires c1.anoFundacion.Some? && c2.anoFundacion.Some?
    requires c1.anoFundacion.value <= c2.anoFundacion.value
    ensures CompanyAgeRange(c1, currentYear).Rank() >= CompanyAgeRange(c2, currentYear).Rank()
  {
  }

  /** The range moves up as the years pass. */
  lemma AgeRangeOverTime(c: Company, year1: int, year2: int)
    requires c.anoFundacion.Some? && year1 <= year2
    ensures CompanyAgeRange(c, year1).Rank() <= CompanyAgeRange(c, year2).Rank()
  {
  }
}
