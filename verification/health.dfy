/** The analysis results object that the dashboard produces and that the
    results panel and the chat assistant read. */
module Health {
  import opened Wrappers

  /** The `confidence` field as JavaScript compares it: a number, or a value
      such as `undefined` that converts to NaN, for which both `c >= k` and
      `c < k` are false. */
  datatype Confidence = Percent(value: real) | NotANumber

  /** `c >= bound` in JavaScript. */
  predicate AtLeast(c: Confidence, bound: real) {
    c.Percent? && c.value >= bound
  }

  /** `c < bound` in JavaScript. */
  predicate Below(c: Confidence, bound: real) {
    c.Percent? && c.value < bound
  }

  /** `{ overallHealth, confidence, anomalies, recommendations }`; a field the
      object lacks is `None`. */
  datatype AnalysisResults = AnalysisResults(
    overallHealth: Option<string>,
    confidence: Confidence,
    anomalies: seq<string>,
    recommendations: Option<seq<string>>)
}
