/**
 * The churn distribution doughnut chart of the dashboard: its chart data and
 * the recomputation of the three risk counts when its input changes.
 */
module ChurnChart {
  import opened Outcomes
  import opened ChurnModels

  /** One dataset of a doughnut chart: the values and their styling. */
  datatype Dataset = Dataset(data: seq<int>, backgroundColor: seq<string>, hoverBackgroundColor: seq<string>,
                             borderColor: string, borderWidth: int)

  /** The dataset the chart starts with: three zero counts. */
  const InitialDataset: Dataset :=
    Dataset([0, 0, 0], ["#10B981", "#F59E0B", "#EF4444"], ["#059669", "#D97706", "#DC2626"], "#ffffff", 2)

  /** The non-churned records' count, of which 40 percent (rounded down) are shown as medium risk. */
  function MediumShare(low: nat): (medium: nat)
    ensures medium <= low
    ensures 5 * medium <= 2 * low < 5 * medium + 5
  {
    var m := ((low as real) * 0.4).Floor;
    assert m == (2 * low) / 5 by {
      assert (low as real) * 0.4 == ((2 * low) as real) / 5.0;
      FloorOfFifths(2 * low);
    }
    m
  }

  /** Rounding a fifth down is integer division by five. */
  lemma FloorOfFifths(n: nat)
    ensures ((n as real) / 5.0).Floor == n / 5
  {
    var q, r := n / 5, n % 5;
    assert n == 5 * q + r;
    assert (n as real) / 5.0 == q as real + r as real / 5.0;
  }

  /** The three values the chart shows: low, medium and high risk. */
  function Distribution(records: seq<FlatCompanyRecord>): (counts: seq<int>)
    ensures |counts| == 3
  {
    var lowRisk := |WithChurn(records, false)|;
    var highRisk := |WithChurn(records, true)|;
    var mediumRisk := MediumShare(lowRisk);
    [lowRisk - mediumRisk, mediumRisk, highRisk]
  }

  /** The chart component: its input records and its chart data. */
  class ChurnDistributionChart {
    /** The input; `None` stands for a `null` or `undefined` binding. */
    var data: Option<seq<FlatCompanyRecord>>
    var isBrowser: bool
    var labels: seq<string>
    var datasets: seq<Dataset>

    /** The chart always has its one dataset. */
    predicate Valid()
      reads this
    {
      |datasets| >= 1
    }

    /** A fresh chart: no records, three labels and the zero dataset. */
    constructor(isBrowser: bool)
      ensures Valid()
      ensures this.isBrowser == isBrowser && data == Some([])
      ensures labels == ["Low Risk", "Medium Risk", "High Risk"] && datasets == [InitialDataset]
    {
      this.isBrowser := isBrowser;
      data := Some([]);
      labels := ["Low Risk", "Medium Risk", "High Risk"];
      datasets := [InitialDataset];
    }

    /** Recomputes the counts; only the first dataset's values change. */
    method UpdateChartData()
      requires Valid() && data.Some?
      modifies this
      ensures Valid()
      ensures datasets == old(datasets)[0 := old(datasets)[0].(data := Distribution(old(data).value))]
      ensures data == old(data) && labels == old(labels) && isBrowser == old(isBrowser)
    {
      var records := data.value;
      var lowRisk := |WithChurn(records, false)|;
      var highRisk := |WithChurn(records, true)|;
      var mediumRisk := MediumShare(lowRisk);
      var finalLowRisk := lowRisk - mediumRisk;
      datasets := datasets[0 := datasets[0].(data := [finalLowRisk, mediumRisk, highRisk])];
    }

    /** Recomputes the counts only when the input is among the changes and is bound. */
    method OnChanges(changes: set<string>)
      requires Valid()
      modifies this
      ensures Valid()
      ensures "data" in changes && old(data).Some? ==>
                datasets == old(datasets)[0 := old(datasets)[0].(data := Distribution(old(data).value))]
      ensures !("data" in changes && old(data).Some?) ==> datasets == old(datasets)
      ensures data == old(data) && labels == old(labels) && isBrowser == old(isBrowser)
    {
      if "data" in changes && data.Some? {
        UpdateChartData();
      }
    }
  }

  /**
   * The shown counts are non-negative and add up to the number of records:
   * high risk is the churned count, low and medium split the rest, medium
   * being two fifths of it rounded down.
   */
  lemma DistributionCovers(records: seq<FlatCompanyRecord>)
    ensures var counts := Distribution(records);
            && counts[0] >= 0 && counts[1] >= 0 && counts[2] >= 0
            && counts[0] + counts[1] + counts[2] == |records|
            && counts[2] == |WithChurn(records, true)|
            && counts[0] + counts[1] == |WithChurn(records, false)|
            && counts[1] == (2 * |WithChurn(records, false)|) / 5
  {
    ChurnSplit(records);
  }
}
