/**
 * The Decision record and the filter's score classification: a model score is
 * compared against the block and monitor thresholds to give ALLOW, MONITOR or
 * BLOCK. Scores are reals, because the filter only compares them.
 */
module Scoring {

  datatype Action = Allow | Monitor | Block

  /** The final decision of the filter: the action taken and the score behind it. */
  datatype Decision = Decision(action: Action, score: real)

  /** The model service's reply body. */
  datatype ModelResponse = ModelResponse(sqlInjectionScore: real)

  /** The configured `thresholds.block` and `thresholds.monitor`. */
  datatype Thresholds = Thresholds(block: real, monitor: real)

  /** Severity order ALLOW < MONITOR < BLOCK. */
  function Rank(a: Action): nat
  {
    match a
    case Allow => 0
    case Monitor => 1
    case Block => 2
  }

  /**
   * Classifies a score: BLOCK at or above the block threshold, otherwise
   * MONITOR at or above the monitor threshold, otherwise ALLOW. The decision
   * carries the score unchanged. No ordering of the thresholds is assumed.
   */
  function EvaluateScore(t: Thresholds, response: ModelResponse): (d: Decision)
    ensures d.score == response.sqlInjectionScore
    ensures d.action == Block <==> response.sqlInjectionScore >= t.block
    ensures d.action == Monitor <==> t.monitor <= response.sqlInjectionScore < t.block
    ensures d.action == Allow <==> response.sqlInjectionScore < t.block && response.sqlInjectionScore < t.monitor
  {
    var score := response.sqlInjectionScore;
    if score >= t.block then Decision(Block, score)
    else if score >= t.monitor then Decision(Monitor, score)
    else Decision(Allow, score)
  }

  /** A higher score never yields a less severe action, whatever the thresholds. */
  lemma EvaluateScoreMonotone(t: Thresholds, low: real, high: real)
    requires low <= high
    ensures Rank(EvaluateScore(t, ModelResponse(low)).action) <= Rank(EvaluateScore(t, ModelResponse(high)).action)
  {
  }

  /** Identical scores always give identical decisions under one configuration. */
  /** The three examples with block 0.8 and monitor 0.5. */
  lemma EvaluateScoreExamples()
    ensures EvaluateScore(Thresholds(0.8, 0.5), ModelResponse(0.9)) == Decision(Block, 0.9)
    ensures EvaluateScore(Thresholds(0.8, 0.5), ModelResponse(0.6)) == Decision(Monitor, 0.6)
    ensures EvaluateScore(Thresholds(0.8, 0.5), ModelResponse(0.1)) == Decision(Allow, 0.1)
  {
  }
}
