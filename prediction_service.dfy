/**
 * The frontend's mock prediction service: the five-factor risk score,
 * its banding, the displayed probability, the recommendation list and
 * the fallback reply for incomplete input. The random draws of the
 * service are parameters (`probabilityDraw`, `confidenceDraw`), meant to
 * lie in [0, 1) like `Math.random()`.
 */
module PredictionService {
  import opened Outcomes
  import opened ChurnModels

  // ---------------------------------------------------------------------
  // Risk score: five weighted factors, summed, capped at 1
  // ---------------------------------------------------------------------

  /** Engagement factor: 0.3 below 30% of the quarter's 90 days, 0.15 below 60%, else 0. */
  function EngagementFactor(e: AppEngagement): (f: real)
    ensures f == 0.3 <==> e.Trimestre_Dias_Actividad < 27.0
    ensures f == 0.15 <==> 27.0 <= e.Trimestre_Dias_Actividad < 54.0
    ensures f == 0.0 <==> 54.0 <= e.Trimestre_Dias_Actividad
  {
    var activityRatio := e.Trimestre_Dias_Actividad / 90.0;
    if activityRatio < 0.3 then 0.3
    else if activityRatio < 0.6 then 0.15
    else 0.0
  }

  /** Margin factor: 0.3 for a negative margin, 0.15 below 10% of revenue, else 0. */
  function MarginFactor(f: Financials): (r: real)
    ensures r == 0.3 <==> f.Margen < 0.0
    ensures r == 0.15 <==> 0.0 <= f.Margen < f.Ingresos * 0.1
    ensures r == 0.0 <==> 0.0 <= f.Margen && f.Ingresos * 0.1 <= f.Margen
  {
    if f.Margen < 0.0 then 0.3
    else if f.Margen < f.Ingresos * 0.1 then 0.15
    else 0.0
  }

  /** Debt factor: 0.2 when debt exceeds half the assets; evaluated only for positive debt and assets. */
  function DebtFactor(f: Financials): (r: real)
    ensures r == 0.2 <==> f.Deuda > 0.0 && f.Activos > 0.0 && f.Deuda > 0.5 * f.Activos
    ensures r == 0.0 <==> !(f.Deuda > 0.0 && f.Activos > 0.0 && f.Deuda > 0.5 * f.Activos)
  {
    if f.Deuda > 0.0 && f.Activos > 0.0 then
      var debtRatio := f.Deuda / f.Activos;
      RatioAboveHalf(f.Deuda, f.Activos);
      if debtRatio > 0.5 then 0.2 else 0.0
    else 0.0
  }

  /** For a positive divisor, a quotient above one half means a dividend above half the divisor. */
  lemma RatioAboveHalf(dividend: real, divisor: real)
    requires divisor > 0.0
    ensures dividend / divisor > 0.5 <==> dividend > 0.5 * divisor
  {
    var q := dividend / divisor;
    assert q * divisor == dividend;
    assert (q - 0.5) * divisor == dividend - 0.5 * divisor;
  }

  /** Credit factor: 0.15 when no loan was requested or fewer than 30% were approved. */
  function CreditFactor(c: CreditBehavior): (r: real)
    ensures r == 0.0 || r == 0.15
    ensures c.Prestamos_Solicitados == 0.0 ==> r == 0.15
    ensures c.Prestamos_Solicitados > 0.0 ==>
              (r == 0.15 <==> c.Prestamos_Aprobados < 0.3 * c.Prestamos_Solicitados)
  {
    if c.Prestamos_Solicitados == 0.0 then 0.15
    else
      var approvalRate := c.Prestamos_Aprobados / c.Prestamos_Solicitados;
      if approvalRate < 0.3 then 0.15 else 0.0
  }

  /** Services factor: 0.1 when fewer than two services are used. */
  function ServicesFactor(s: ServicesFlags): (r: real)
    ensures r == 0.1 <==> s.Servicios_Utilizados < 2.0
    ensures r == 0.0 <==> s.Servicios_Utilizados >= 2.0
  {
    if s.Servicios_Utilizados < 2.0 then 0.1 else 0.0
  }

  /** The uncapped sum of the five factors. */
  function RawScore(m: QuarterlyMetrics): (r: real)
    ensures 0.0 <= r <= 1.05
  {
    EngagementFactor(m.app_engagement) + MarginFactor(m.financials) + DebtFactor(m.financials)
    + CreditFactor(m.credit_behavior) + ServicesFactor(m.services_flags)
  }

  /** The risk score: the factor sum capped at 1. */
  function RiskScore(m: QuarterlyMetrics): (s: real)
    ensures 0.0 <= s <= 1.0
    ensures s <= RawScore(m)
    ensures s == 1.0 || s == RawScore(m)
  {
    var raw := RawScore(m);
    if raw <= 1.0 then raw else 1.0
  }

  /** Accumulates the score factor by factor in a local variable, as the service does. */
  method CalculateRiskScore(data: QuarterlyMetrics) returns (score: real)
    ensures score == RiskScore(data)
    ensures 0.0 <= score <= 1.0
  {
    score := 0.0;

    // Factor 1: low engagement
    var activityRatio := data.app_engagement.Trimestre_Dias_Actividad / 90.0;
    if activityRatio < 0.3 {
      score := score + 0.3;
    } else if activityRatio < 0.6 {
      score := score + 0.15;
    }

    // Factor 2: negative or thin margin
    if data.financials.Margen < 0.0 {
      score := score + 0.3;
    } else if data.financials.Margen < data.financials.Ingresos * 0.1 {
      score := score + 0.15;
    }

    // Factor 3: debt high relative to assets
    if data.financials.Deuda > 0.0 && data.financials.Activos > 0.0 {
      var debtRatio := data.financials.Deuda / data.financials.Activos;
      if debtRatio > 0.5 {
        score := score + 0.2;
      }
    }

    // Factor 4: no requests, or few approvals
    if data.credit_behavior.Prestamos_Solicitados == 0.0 {
      score := score + 0.15;
    } else {
      var approvalRate := data.credit_behavior.Prestamos_Aprobados / data.credit_behavior.Prestamos_Solicitados;
      if approvalRate < 0.3 {
        score := score + 0.15;
      }
    }

    // Factor 5: few services
    if data.services_flags.Servicios_Utilizados < 2.0 {
      score := score + 0.1;
    }

    score := if score <= 1.0 then score else 1.0;
  }

  /** The same metrics with a different number of active days. */
  function WithActivityDays(m: QuarterlyMetrics, days: real): (m': QuarterlyMetrics)
    ensures m'.app_engagement.Trimestre_Dias_Actividad == days
    ensures m'.financials == m.financials && m'.credit_behavior == m.credit_behavior
    ensures m'.services_flags == m.services_flags
  {
    m.(app_engagement := m.app_engagement.(Trimestre_Dias_Actividad := days))
  }

  /** Fewer active days, everything else fixed, never lowers the score. */
  lemma ActivityMonotone(m: QuarterlyMetrics, fewer: real, more: real)
    requires fewer <= more
    ensures RiskScore(WithActivityDays(m, fewer)) >= RiskScore(WithActivityDays(m, more))
  {
    var a, b := WithActivityDays(m, fewer), WithActivityDays(m, more);
    assert EngagementFactor(a.app_engagement) >= EngagementFactor(b.app_engagement);
    assert RawScore(a) >= RawScore(b);
  }

  /** The end-to-end example: every factor fires, the sum is 1.05 and the score is capped at 1. */
  lemma AllFactorsExample(m: QuarterlyMetrics)
    requires m.financials == Financials(100000.0, 120000.0, -20000.0, 60000.0, 100000.0)
    requires m.credit_behavior.Prestamos_Solicitados == 0.0
    requires m.app_engagement.Trimestre_Dias_Actividad == 10.0
    requires m.services_flags.Servicios_Utilizados == 1.0
    ensures RawScore(m) == 1.05
    ensures RiskScore(m) == 1.0
    ensures Band(RiskScore(m)) == Alto
  {
    assert DebtFactor(m.financials) == 0.2;
  }

  // ---------------------------------------------------------------------
  // Banding and displayed probability
  // ---------------------------------------------------------------------

  /** The band of a score: above 0.7 alto, above 0.4 medio, otherwise bajo. */
  function Band(risk: real): (b: RiskBand)
    ensures b == Alto <==> risk > 0.7
    ensures b == Medio <==> 0.4 < risk <= 0.7
    ensures b == Bajo <==> risk <= 0.4
  {
    if risk > 0.7 then Alto
    else if risk > 0.4 then Medio
    else Bajo
  }

  /** The severity order of the bands. */
  function Severity(b: RiskBand): int {
    match b
    case Bajo => 0
    case Medio => 1
    case Alto => 2
  }

  /** A higher score never yields a less severe band. */
  lemma BandMonotone(lower: real, higher: real)
    requires lower <= higher
    ensures Severity(Band(lower)) <= Severity(Band(higher))
  {
  }

  /** `Math.round(x * 100) / 100`: rounding to cents, ties upwards. */
  function RoundCents(x: real): (r: real)
    ensures x - 0.005 < r <= x + 0.005
  {
    ((x * 100.0 + 0.5).Floor as real) / 100.0
  }

  /** Lower end of the probability drawn for a band. */
  function BandLow(b: RiskBand): real {
    match b
    case Alto => 0.6
    case Medio => 0.3
    case Bajo => 0.0
  }

  /** Width of the probability range drawn for a band. */
  function BandWidth(b: RiskBand): real {
    match b
    case Alto => 0.4
    case Medio => 0.4
    case Bajo => 0.3
  }

  /** The displayed probability: a draw scaled into the band's range, rounded to cents. */
  function DisplayProbability(b: RiskBand, draw: real): (p: real)
    ensures 0.0 <= draw < 1.0 ==> BandLow(b) <= p <= BandLow(b) + BandWidth(b)
    ensures 0.0 <= draw < 1.0 ==> 0.0 <= p <= 1.0
  {
    RoundCents(BandLow(b) + draw * BandWidth(b))
  }

  // ---------------------------------------------------------------------
  // Recommendations
  // ---------------------------------------------------------------------

  /** The five recommendation rules, in the order they are evaluated. */
  datatype Rule = PriorityContact | Reactivate | Profitability | CreditLine | Onboarding

  const RuleOrder: seq<Rule> := [PriorityContact, Reactivate, Profitability, CreditLine, Onboarding]

  const DefaultRecommendation: string := "Continuar monitoreo regular"

  /** The advice text of a rule. */
  function Message(r: Rule): string {
    match r
    case PriorityContact => "Contacto prioritario " + "con account manager"
    case Reactivate => "Reactivar uso de plataforma mediante " + "webinar o capacitación"
    case Profitability => "Análisis de rentabilidad " + "y ajuste de servicios"
    case CreditLine => "Ofrecer línea de crédito " + "con tasa preferencial"
    case Onboarding => "Onboarding para servicios de " + "inversión o transferencias"
  }

  /** Whether a rule fires; the reactivation and profitability rules are nested under alto. */
  predicate Fires(r: Rule, data: QuarterlyMetrics, prevision: RiskBand) {
    match r
    case PriorityContact => prevision == Alto
    case Reactivate => prevision == Alto && data.app_engagement.Trimestre_Dias_Actividad < 30.0
    case Profitability => prevision == Alto && data.financials.Margen < 0.0
    case CreditLine => data.credit_behavior.Prestamos_Vigentes == 0.0
    case Onboarding => data.services_flags.Servicios_Utilizados < 3.0
  }

  /** The rules among `rules` that fire, in the order of `rules`. */
  function Firing(rules: seq<Rule>, data: QuarterlyMetrics, prevision: RiskBand): seq<Rule> {
    if rules == [] then []
    else (if Fires(rules[0], data, prevision) then [rules[0]] else []) + Firing(rules[1..], data, prevision)
  }

  /** The advice texts of a sequence of rules. */
  function Messages(rules: seq<Rule>): (texts: seq<string>)
    ensures |texts| == |rules|
    ensures forall i :: 0 <= i < |rules| ==> texts[i] == Message(rules[i])
  {
    if rules == [] then [] else [Message(rules[0])] + Messages(rules[1..])
  }

  /** The recommendation list: the fired rules' messages, or the single default. */
  function Recommendations(data: QuarterlyMetrics, prevision: RiskBand): seq<string> {
    var fired := Firing(RuleOrder, data, prevision);
    if fired == [] then [DefaultRecommendation] else Messages(fired)
  }

  /** Builds the list by pushing onto it, as the service does. */
  method GenerateRecommendations(data: QuarterlyMetrics, prevision: RiskBand) returns (recs: seq<string>)
    ensures recs == Recommendations(data, prevision)
  {
    var recommendations: seq<string> := [];

    if prevision == Alto {
      recommendations := recommendations + [Message(PriorityContact)];
      if data.app_engagement.Trimestre_Dias_Actividad < 30.0 {
        recommendations := recommendations + [Message(Reactivate)];
      }
      if data.financials.Margen < 0.0 {
        recommendations := recommendations + [Message(Profitability)];
      }
    }
    assert recommendations == Said(PriorityContact, data, prevision) + Said(Reactivate, data, prevision)
                              + Said(Profitability, data, prevision);

    if data.credit_behavior.Prestamos_Vigentes == 0.0 {
      recommendations := recommendations + [Message(CreditLine)];
    }
    assert recommendations == Said(PriorityContact, data, prevision) + Said(Reactivate, data, prevision)
                              + Said(Profitability, data, prevision) + Said(CreditLine, data, prevision);

    if data.services_flags.Servicios_Utilizados < 3.0 {
      recommendations := recommendations + [Message(Onboarding)];
    }

    RecommendationsBySegments(data, prevision);
    AppendRegroup(Said(PriorityContact, data, prevision), Said(Reactivate, data, prevision),
      Said(Profitability, data, prevision), Said(CreditLine, data, prevision), Said(Onboarding, data, prevision));
    recs := if |recommendations| > 0 then recommendations else [DefaultRecommendation];
  }

  /** Five slices appended right to left give the same list as appended left to right. */
  lemma AppendRegroup<T>(a: seq<T>, b: seq<T>, c: seq<T>, d: seq<T>, e: seq<T>)
    ensures a + (b + (c + (d + e))) == a + b + c + d + e
  {
    assert c + (d + e) == c + d + e;
    assert b + (c + d + e) == b + c + d + e;
  }

  /** The message a rule contributes: its text when it fires, nothing otherwise. */
  function Said(r: Rule, data: QuarterlyMetrics, prevision: RiskBand): seq<string> {
    if Fires(r, data, prevision) then [Message(r)] else []
  }

  /** The one-rule slice of the firing rules contributed by `r`. */
  function Segment(r: Rule, data: QuarterlyMetrics, prevision: RiskBand): seq<Rule> {
    if Fires(r, data, prevision) then [r] else []
  }

  /** The messages of a concatenation are the concatenated messages. */
  lemma {:induction false} MessagesConcat(a: seq<Rule>, b: seq<Rule>)
    ensures Messages(a + b) == Messages(a) + Messages(b)
  {
    if a != [] {
      assert (a + b)[1..] == a[1..] + b;
      MessagesConcat(a[1..], b);
    }
  }

  /** The recommendation list, written out rule by rule. */
  lemma RecommendationsBySegments(data: QuarterlyMetrics, prevision: RiskBand)
    ensures var said := Said(PriorityContact, data, prevision) + (Said(Reactivate, data, prevision)
                        + (Said(Profitability, data, prevision) + (Said(CreditLine, data, prevision)
                        + Said(Onboarding, data, prevision))));
            Recommendations(data, prevision) == if said == [] then [DefaultRecommendation] else said
  {
    var s1, s2, s3 := Segment(PriorityContact, data, prevision), Segment(Reactivate, data, prevision), Segment(Profitability, data, prevision);
    var s4, s5 := Segment(CreditLine, data, prevision), Segment(Onboarding, data, prevision);
    FiringRuleOrder(data, prevision);
    MessagesConcat(s4, s5);
    MessagesConcat(s3, s4 + s5);
    MessagesConcat(s2, s3 + (s4 + s5));
    MessagesConcat(s1, s2 + (s3 + (s4 + s5)));
    MessagesSegment(PriorityContact, data, prevision);
    MessagesSegment(Reactivate, data, prevision);
    MessagesSegment(Profitability, data, prevision);
    MessagesSegment(CreditLine, data, prevision);
    MessagesSegment(Onboarding, data, prevision);
  }

  /** A rule's slice of firing rules speaks that rule's message exactly when it fires. */
  lemma MessagesSegment(r: Rule, data: QuarterlyMetrics, prevision: RiskBand)
    ensures Messages(Segment(r, data, prevision)) == Said(r, data, prevision)
  {
  }

  /** The rules that fire, in evaluation order, written out rule by rule. */
  lemma FiringRuleOrder(data: QuarterlyMetrics, prevision: RiskBand)
    ensures Firing(RuleOrder, data, prevision)
            == Segment(PriorityContact, data, prevision) + (Segment(Reactivate, data, prevision)
             + (Segment(Profitability, data, prevision) + (Segment(CreditLine, data, prevision)
             + Segment(Onboarding, data, prevision))))
  {
    var r4: seq<Rule> := [Onboarding];
    var r3: seq<Rule> := [CreditLine] + r4;
    var r2: seq<Rule> := [Profitability] + r3;
    var r1: seq<Rule> := [Reactivate] + r2;
    assert RuleOrder == [PriorityContact] + r1;
    FiringCons(Onboarding, [], data, prevision);
    FiringCons(CreditLine, r4, data, prevision);
    FiringCons(Profitability, r3, data, prevision);
    FiringCons(Reactivate, r2, data, prevision);
    FiringCons(PriorityContact, r1, data, prevision);
  }

  /** Filtering a rule list that starts with `r`: `r`'s own slice, then the rest. */
  lemma FiringCons(r: Rule, rest: seq<Rule>, data: QuarterlyMetrics, prevision: RiskBand)
    ensures Firing([r] + rest, data, prevision) == Segment(r, data, prevision) + Firing(rest, data, prevision)
  {
    assert ([r] + rest)[1..] == rest;
  }

  /** No rule's message is the default text, and distinct rules have distinct messages. */
  lemma MessagesDistinct()
    ensures forall r: Rule :: Message(r) != DefaultRecommendation
    ensures forall r1: Rule, r2: Rule :: r1 != r2 ==> Message(r1) != Message(r2)
  {
    assert |DefaultRecommendation| == 27;
    assert |Message(PriorityContact)| == 40;
    assert |Message(Reactivate)| == 59;
    assert |Message(Profitability)| == 46 && Message(Profitability)[45] == 's';
    assert |Message(CreditLine)| == 46 && Message(CreditLine)[45] == 'l';
    assert |Message(Onboarding)| == 55;
  }

  /** At most one entry per rule; empty exactly when no rule fires. */
  lemma {:induction false} FiringLength(rules: seq<Rule>, data: QuarterlyMetrics, prevision: RiskBand)
    ensures |Firing(rules, data, prevision)| <= |rules|
    ensures Firing(rules, data, prevision) == [] <==> forall k :: 0 <= k < |rules| ==> !Fires(rules[k], data, prevision)
  {
    if rules != [] {
      FiringLength(rules[1..], data, prevision);
      if Fires(rules[0], data, prevision) {
        assert Firing(rules, data, prevision)[0] == rules[0];
      } else if forall k :: 0 <= k < |rules[1..]| ==> !Fires(rules[1..][k], data, prevision) {
        forall k | 0 <= k < |rules| ensures !Fires(rules[k], data, prevision) {
          if k > 0 { assert rules[k] == rules[1..][k - 1]; }
        }
      } else {
        var k :| 0 <= k < |rules[1..]| && Fires(rules[1..][k], data, prevision);
        assert rules[k + 1] == rules[1..][k];
      }
    }
  }

  /** A rule is among the firing ones exactly when it is listed and fires. */
  lemma {:induction false} FiringMembers(rules: seq<Rule>, data: QuarterlyMetrics, prevision: RiskBand, r: Rule)
    ensures r in Firing(rules, data, prevision) <==> r in rules && Fires(r, data, prevision)
  {
    if rules != [] {
      FiringMembers(rules[1..], data, prevision, r);
      assert rules == [rules[0]] + rules[1..];
    }
  }

  /** Two firing rules keep their relative order. */
  lemma {:induction false} FiringOrdered(rules: seq<Rule>, data: QuarterlyMetrics, prevision: RiskBand, i: nat, j: nat)
    requires i < j < |rules|
    requires Fires(rules[i], data, prevision) && Fires(rules[j], data, prevision)
    ensures exists p, q :: 0 <= p < q < |Firing(rules, data, prevision)|
                           && Firing(rules, data, prevision)[p] == rules[i]
                           && Firing(rules, data, prevision)[q] == rules[j]
  {
    var all := Firing(rules, data, prevision);
    var rest := Firing(rules[1..], data, prevision);
    var head := if Fires(rules[0], data, prevision) then [rules[0]] else [];
    assert all == head + rest;
    assert rules[1..][j - 1] == rules[j];
    if i == 0 {
      FiringMembers(rules[1..], data, prevision, rules[j]);
      var q :| 0 <= q < |rest| && rest[q] == rules[j];
      assert all[0] == rules[0] && all[1 + q] == rules[j];
    } else {
      assert rules[1..][i - 1] == rules[i];
      FiringOrdered(rules[1..], data, prevision, i - 1, j - 1);
      var p, q :| 0 <= p < q < |rest| && rest[p] == rules[i] && rest[q] == rules[j];
      assert all[|head| + p] == rules[i] && all[|head| + q] == rules[j];
    }
  }

  /** The list is never empty and holds at most five items. */
  lemma RecommendationsSize(data: QuarterlyMetrics, prevision: RiskBand)
    ensures 1 <= |Recommendations(data, prevision)| <= 5
  {
    FiringLength(RuleOrder, data, prevision);
  }

  /** The list is exactly the default when, and only when, no rule fires. */
  lemma RecommendationsDefault(data: QuarterlyMetrics, prevision: RiskBand)
    ensures Recommendations(data, prevision) == [DefaultRecommendation]
            <==> forall r: Rule :: !Fires(r, data, prevision)
  {
    FiringLength(RuleOrder, data, prevision);
    MessagesDistinct();
    var fired := Firing(RuleOrder, data, prevision);
    if fired != [] {
      assert Recommendations(data, prevision)[0] == Message(fired[0]) != DefaultRecommendation;
      var k :| 0 <= k < |RuleOrder| && Fires(RuleOrder[k], data, prevision);
      assert !forall r: Rule :: !Fires(r, data, prevision);
    } else {
      forall r: Rule ensures !Fires(r, data, prevision) {
        assert RuleOrder[RuleIndex(r)] == r;
      }
    }
  }

  /** The position of a rule in the evaluation order. */
  function RuleIndex(r: Rule): (k: nat)
    ensures k < |RuleOrder| && RuleOrder[k] == r
  {
    match r
    case PriorityContact => 0
    case Reactivate => 1
    case Profitability => 2
    case CreditLine => 3
    case Onboarding => 4
  }

  /** A rule's message is in the list exactly when the rule fires. */
  lemma RecommendationMembership(data: QuarterlyMetrics, prevision: RiskBand, r: Rule)
    ensures Message(r) in Recommendations(data, prevision) <==> Fires(r, data, prevision)
  {
    var fired := Firing(RuleOrder, data, prevision);
    FiringMembers(RuleOrder, data, prevision, r);
    assert r in RuleOrder by { assert RuleOrder[RuleIndex(r)] == r; }
    if fired == [] {
      MessagesDistinct();
    } else {
      MessagesMember(fired, r);
    }
  }

  /** A rule's message is among the messages of a rule list exactly when the rule is listed. */
  lemma MessagesMember(rules: seq<Rule>, r: Rule)
    ensures Message(r) in Messages(rules) <==> r in rules
  {
    MessagesDistinct();
    if r in rules {
      var k :| 0 <= k < |rules| && rules[k] == r;
      assert Messages(rules)[k] == Message(r);
    }
    if Message(r) in Messages(rules) {
      var k :| 0 <= k < |rules| && Messages(rules)[k] == Message(r);
      assert rules[k] == r;
    }
  }

  /** Two recommendations that both appear do so in rule order. */
  lemma RecommendationOrder(data: QuarterlyMetrics, prevision: RiskBand, first: Rule, second: Rule)
    requires RuleIndex(first) < RuleIndex(second)
    requires Fires(first, data, prevision) && Fires(second, data, prevision)
    ensures exists p, q :: 0 <= p < q < |Recommendations(data, prevision)|
                           && Recommendations(data, prevision)[p] == Message(first)
                           && Recommendations(data, prevision)[q] == Message(second)
  {
    FiringOrdered(RuleOrder, data, prevision, RuleIndex(first), RuleIndex(second));
    var fired := Firing(RuleOrder, data, prevision);
    var p, q :| 0 <= p < q < |fired| && fired[p] == first && fired[q] == second;
    assert Recommendations(data, prevision)[p] == Message(first);
    assert Recommendations(data, prevision)[q] == Message(second);
  }

  /** Priority contact opens the list for alto and is absent otherwise. */
  lemma PriorityContactFirst(data: QuarterlyMetrics, prevision: RiskBand)
    ensures prevision == Alto ==> Recommendations(data, prevision)[0] == Message(PriorityContact)
    ensures prevision != Alto ==> Message(PriorityContact) !in Recommendations(data, prevision)
  {
    RecommendationMembership(data, prevision, PriorityContact);
    FiringRuleOrder(data, prevision);
  }

  /** The worked ordering example: every rule fires, in the fixed order. */
  lemma FullRecommendationExample(data: QuarterlyMetrics)
    requires data.app_engagement.Trimestre_Dias_Actividad == 10.0
    requires data.financials.Margen == -500.0
    requires data.credit_behavior.Prestamos_Vigentes == 0.0
    requires data.services_flags.Servicios_Utilizados == 1.0
    ensures Recommendations(data, Alto) == [Message(PriorityContact), Message(Reactivate),
              Message(Profitability), Message(CreditLine), Message(Onboarding)]
  {
    FiringRuleOrder(data, Alto);
  }

  // ---------------------------------------------------------------------
  // The prediction reply
  // ---------------------------------------------------------------------

  const RetryMessage: string := "Error en predicción. Reintentar."

  /** The fixed reply given when the input is incomplete. */
  function HandleError(message: string): (r: PredictionResponse)
    ensures r.prevision == Medio && r.probabilidad == 0.5
    ensures r.confidence.None? && r.recomendaciones == Some([RetryMessage])
    ensures r.WellFormed()
  {
    PredictionResponse(Medio, 0.5, None, Some([RetryMessage]))
  }

  /** Metrics as submitted: the financial and engagement parts may be missing. */
  datatype SubmittedMetrics = SubmittedMetrics(
    Periodo_Fiscal: string,
    financials: Option<Financials>,
    credit_behavior: CreditBehavior,
    app_engagement: Option<AppEngagement>,
    services_flags: ServicesFlags)

  /** The complete metrics, when both optional parts are present. */
  function Completed(data: Option<SubmittedMetrics>): (r: Option<QuarterlyMetrics>)
    ensures r.Some? <==> data.Some? && data.value.financials.Some? && data.value.app_engagement.Some?
    ensures r.Some? ==> r.value.financials == data.value.financials.value
                        && r.value.app_engagement == data.value.app_engagement.value
                        && r.value.credit_behavior == data.value.credit_behavior
                        && r.value.services_flags == data.value.services_flags
  {
    match data
    case None => None
    case Some(d) =>
      if d.financials.None? || d.app_engagement.None? then None
      else Some(QuarterlyMetrics(d.Periodo_Fiscal, d.financials.value, d.credit_behavior,
                                 d.app_engagement.value, d.services_flags))
  }

  /** Scores, bands, draws the displayed probability and attaches the recommendations. */
  method MockPrediction(data: QuarterlyMetrics, probabilityDraw: real) returns (response: PredictionResponse)
    ensures response.prevision == Band(RiskScore(data))
    ensures response.probabilidad == DisplayProbability(response.prevision, probabilityDraw)
    ensures response.confidence.None?
    ensures response.recomendaciones == Some(Recommendations(data, response.prevision))
    ensures 0.0 <= probabilityDraw < 1.0 ==> response.WellFormed()
  {
    var risk := CalculateRiskScore(data);
    var prevision := Band(risk);
    var recs := GenerateRecommendations(data, prevision);
    response := PredictionResponse(prevision, DisplayProbability(prevision, probabilityDraw), None, Some(recs));
  }

  /** The service entry point: the fallback for incomplete input, otherwise the mock prediction plus a confidence. */
  method Predict(data: Option<SubmittedMetrics>, probabilityDraw: real, confidenceDraw: real)
    returns (response: PredictionResponse)
    ensures Completed(data).None? ==> response == HandleError("Datos de entrada incompletos")
    ensures Completed(data).Some? ==>
              var m := Completed(data).value;
              && response.prevision == Band(RiskScore(m))
              && response.probabilidad == DisplayProbability(response.prevision, probabilityDraw)
              && response.recomendaciones == Some(Recommendations(m, response.prevision))
              && response.confidence == Some(confidenceDraw * 0.4 + 0.6)
    ensures Completed(data).Some? && 0.0 <= confidenceDraw < 1.0 ==>
              0.6 <= response.confidence.value < 1.0
    ensures 0.0 <= probabilityDraw < 1.0 && 0.0 <= confidenceDraw < 1.0 ==> response.WellFormed()
  {
    var complete := Completed(data);
    if complete.None? {
      return HandleError("Datos de entrada incompletos");
    }
    var mock := MockPrediction(complete.value, probabilityDraw);
    response := mock.(confidence := Some(confidenceDraw * 0.4 + 0.6));
  }
}
