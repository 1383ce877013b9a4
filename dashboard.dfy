/**
 * The dashboard's key figures, computed from the company records it loaded:
 * the number of companies, the churn percentage and the number of churned
 * (high-risk) companies.
 */
module Dashboard {
  import opened ChurnModels

  /** The number of companies shown. */
  function TotalCompanies(companies: seq<FlatCompanyRecord>): (n: nat)
    ensures n == |companies|
    ensures n == |WithChurn(companies, true)| + |WithChurn(companies, false)|
  {
    ChurnSplit(companies);
    |companies|
  }

  /** The running tally of the churn reduction: `acc` plus one per churned record. */
  function ChurnTally(companies: seq<FlatCompanyRecord>, acc: int): int {
    if companies == [] then acc
    else ChurnTally(companies[1..], acc + (if companies[0].status.Churn then 1 else 0))
  }

  /** The tally adds the number of churned records to its start. */
  lemma {:induction false} TallyCountsChurned(companies: seq<FlatCompanyRecord>, acc: int)
    ensures ChurnTally(companies, acc) == acc + |WithChurn(companies, true)|
  {
    if companies != [] {
      TallyCountsChurned(companies[1..], acc + (if companies[0].status.Churn then 1 else 0));
    }
  }

  /** The churn percentage: zero without companies, otherwise the churned share times 100. */
  function AvgChurnProbability(companies: seq<FlatCompanyRecord>): (p: real)
    ensures companies == [] ==> p == 0.0
    ensures 0.0 <= p <= 100.0
  {
    if |companies| == 0 then 0.0
    else
      var totalProbability := ChurnTally(companies, 0);
      TallyCountsChurned(companies, 0);
      Percent(totalProbability, |companies|);
      (totalProbability as real / |companies| as real) * 100.0
  }

  /** The number of churned companies, never more than the companies shown. */
  function HighRiskCompanies(companies: seq<FlatCompanyRecord>): (n: nat)
    ensures n <= TotalCompanies(companies)
    ensures forall c :: c in companies && c.status.Churn ==> n > 0
    ensures n == |set i | 0 <= i < |companies| && companies[i].status.Churn|
  {
    var churned := WithChurn(companies, true);
    WithChurnCounts(companies, true);
    assert ChurnPositions(companies, true) == set i | 0 <= i < |companies| && companies[i].status.Churn;
    assert forall c :: c in companies && c.status.Churn ==> c in churned;
    |churned|
  }

  /** With companies present, the churn percentage is the high-risk count over the total, times 100. */
  lemma AverageIsHighRiskShare(companies: seq<FlatCompanyRecord>)
    requires companies != []
    ensures AvgChurnProbability(companies)
            == HighRiskCompanies(companies) as real / TotalCompanies(companies) as real * 100.0
  {
    TallyCountsChurned(companies, 0);
  }

  /** The churn percentage is 100 exactly when every company churned and 0 exactly when none did. */
  lemma AverageExtremes(companies: seq<FlatCompanyRecord>)
    requires companies != []
    ensures AvgChurnProbability(companies) == 100.0 <==> forall c :: c in companies ==> c.status.Churn
    ensures AvgChurnProbability(companies) == 0.0 <==> forall c :: c in companies ==> !c.status.Churn
  {
    AverageIsHighRiskShare(companies);
    ChurnSplit(companies);
    var churned, active := WithChurn(companies, true), WithChurn(companies, false);
    Percent(|churned|, |companies|);
    if forall c :: c in companies ==> c.status.Churn {
      NoneWith(companies, false);
    }
    if forall c :: c in companies ==> !c.status.Churn {
      NoneWith(companies, true);
    }
  }

  /** When no record has the churn flag `churn`, filtering by it leaves nothing. */
  lemma NoneWith(companies: seq<FlatCompanyRecord>, churn: bool)
    requires forall c :: c in companies ==> c.status.Churn != churn
    ensures WithChurn(companies, churn) == []
  {
  }

  /** A share of a positive whole, in percent: within [0, 100], at the ends exactly for none and all. */
  lemma Percent(part: int, whole: int)
    requires 0 <= part <= whole && whole > 0
    ensures 0.0 <= part as real / whole as real * 100.0 <= 100.0
    ensures part as real / whole as real * 100.0 == 100.0 <==> part == whole
    ensures part as real / whole as real * 100.0 == 0.0 <==> part == 0
  {
    var q := part as real / whole as real;
    assert q * whole as real == part as real;
    assert q <= 1.0;
  }
}
