/** The retrain screen: a button that asks the service to retrain the model,
    and a table that compares the previous model's metrics with the new one's. */
module Retrain {
  import opened Js
  import opened Http

  /** Differences smaller than this are shown as "No change". */
  const Tolerance: real := 0.001

  const RetrainedMessage: string := "Model retrained successfully!"
  const RetrainFailedMessage: string := "Error retraining model. Please try again."

  /** The change shown for one metric: its direction and its magnitude. */
  datatype Verdict = NoChange | Improved(delta: real) | Decreased(delta: real)

  function Abs(x: real): (r: real)
    ensures r >= 0.0 && (r == x || r == -x)
  {
    if x < 0.0 then -x else x
  }

  /** The verdict for a metric that moved from `oldMetric` to `newMetric`;
      `higherIsBetter` is false for a metric where lower values are better. */
  function PerformanceIndicator(oldMetric: real, newMetric: real, higherIsBetter: bool): (r: Verdict)
    ensures r.NoChange? <==> Abs(newMetric - oldMetric) < Tolerance
    ensures r.Improved? <==> Abs(newMetric - oldMetric) >= Tolerance &&
                             (if higherIsBetter then newMetric > oldMetric else newMetric < oldMetric)
    ensures r.Decreased? <==> Abs(newMetric - oldMetric) >= Tolerance &&
                              (if higherIsBetter then newMetric < oldMetric else newMetric > oldMetric)
    ensures !r.NoChange? ==> r.delta == Abs(newMetric - oldMetric) && r.delta >= Tolerance
  {
    var diff := newMetric - oldMetric;
    var improved := if higherIsBetter then diff > 0.0 else diff < 0.0;
    if Abs(diff) < Tolerance then NoChange
    else if improved then Improved(Abs(diff))
    else Decreased(Abs(diff))
  }

  /** The verdict with its direction reversed. */
  function Reversed(v: Verdict): Verdict {
    match v
    case NoChange => NoChange
    case Improved(d) => Decreased(d)
    case Decreased(d) => Improved(d)
  }

  /** Flipping the orientation of a metric swaps Improved and Decreased and
      keeps the magnitude. */
  lemma FlipOrientation(oldMetric: real, newMetric: real, higherIsBetter: bool)
    ensures PerformanceIndicator(oldMetric, newMetric, !higherIsBetter)
         == Reversed(PerformanceIndicator(oldMetric, newMetric, higherIsBetter))
  {
  }

  /** Exchanging the two models reverses the verdict. */
  lemma ExchangeModels(oldMetric: real, newMetric: real, higherIsBetter: bool)
    ensures PerformanceIndicator(newMetric, oldMetric, higherIsBetter)
         == Reversed(PerformanceIndicator(oldMetric, newMetric, higherIsBetter))
  {
  }

  /** The worked cases: 0.80 to 0.85 is an improvement of 0.05 for a metric where
      higher is better and a decrease of 0.05 otherwise; equal values are no change. */
  lemma WorkedVerdicts()
    ensures PerformanceIndicator(0.80, 0.85, true) == Improved(0.05)
    ensures PerformanceIndicator(0.80, 0.85, false) == Decreased(0.05)
    ensures PerformanceIndicator(0.50, 0.50, true) == NoChange
    ensures PerformanceIndicator(0.5, 0.5009, false) == NoChange
  {
  }

  /** The rows of the comparison table, in display order. */
  datatype Metric = Accuracy | Precision | Recall | F1 | LogLoss

  const MetricRows: seq<Metric> := [Accuracy, Precision, Recall, F1, LogLoss]

  /** Log loss is the one metric of the table where lower is better. */
  function HigherIsBetter(m: Metric): bool {
    m != LogLoss
  }

  /** One model's entry in the comparison the service returns. */
  datatype ModelMetrics = ModelMetrics(
    accuracy: real, precision: real, recall: real, f1: real, logLoss: real,
    trainingDate: string, samples: int, trainingTime: real)

  function Score(m: ModelMetrics, metric: Metric): real {
    match metric
    case Accuracy => m.accuracy
    case Precision => m.precision
    case Recall => m.recall
    case F1 => m.f1
    case LogLoss => m.logLoss
  }

  /** The "Change" column of the comparison table: one verdict per metric row. */
  function ComparisonRows(oldModel: ModelMetrics, newModel: ModelMetrics): (rows: seq<(Metric, Verdict)>)
    ensures |rows| == |MetricRows|
    ensures forall i :: 0 <= i < |rows| ==> rows[i].0 == MetricRows[i]
    ensures forall i :: 0 <= i < |rows| ==>
              rows[i].1 == PerformanceIndicator(Score(oldModel, MetricRows[i]), Score(newModel, MetricRows[i]), i < 4)
  {
    seq(|MetricRows|, i requires 0 <= i < |MetricRows| =>
      var m := MetricRows[i];
      (m, PerformanceIndicator(Score(oldModel, m), Score(newModel, m), HigherIsBetter(m))))
  }

  /** The first four rows count a rise of at least the tolerance as an
      improvement, the log-loss row counts a fall of at least the tolerance as one. */
  lemma ComparisonDirections(oldModel: ModelMetrics, newModel: ModelMetrics, i: nat)
    requires i < |MetricRows|
    ensures var m := MetricRows[i];
            var rise := Score(newModel, m) - Score(oldModel, m);
            ComparisonRows(oldModel, newModel)[i].1.Improved?
            <==> (if i < 4 then rise >= Tolerance else rise <= -Tolerance)
  {
  }

  /** The retrain screen's state: `isRetraining`, `retrainStatus` and
      `modelComparison`, the latter the body of the last successful response. */
  class RetrainScreen {
    var isRetraining: bool
    var retrainStatus: Option<Status>
    var modelComparison: Value

    /** While a retrain is pending nothing is shown, and a comparison is only
        ever shown next to a success status. */
    ghost predicate Valid()
      reads this
    {
      && (isRetraining ==> retrainStatus == None && modelComparison == Null)
      && (modelComparison != Null ==> retrainStatus == Some(Status(true, RetrainedMessage)))
    }

    constructor ()
      ensures Valid()
      ensures !isRetraining && retrainStatus == None && modelComparison == Null
    {
      isRetraining := false;
      retrainStatus := None;
      modelComparison := Null;
    }

    /** The start of `handleRetrain`; the button is disabled while a retrain is pending. */
    method StartRetrain()
      requires Valid() && !isRetraining
      modifies this
      ensures Valid()
      ensures isRetraining && retrainStatus == None && modelComparison == Null
    {
      isRetraining := true;
      retrainStatus := None;
      modelComparison := Null;
    }

    /** The rest of `handleRetrain`, once the POST to /retrain has settled. */
    method FinishRetrain(outcome: AxiosOutcome)
      requires Valid() && isRetraining
      modifies this
      ensures Valid()
      ensures !isRetraining
      ensures outcome.Resolved? ==>
                retrainStatus == Some(Status(true, RetrainedMessage)) && modelComparison == outcome.data
      ensures outcome.Rejected? ==>
                retrainStatus == Some(Status(false, RetrainFailedMessage)) && modelComparison == Null
    {
      match outcome {
        case Resolved(data) =>
          retrainStatus := Some(Status(true, RetrainedMessage));
          modelComparison := data;
        case Rejected =>
          retrainStatus := Some(Status(false, RetrainFailedMessage));
      }
      isRetraining := false;
    }
  }
}
