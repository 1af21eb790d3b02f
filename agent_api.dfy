/**
 * The part of the agent interface that the orchestrator consumes: the reply
 * fields it reads (insights, recommendations, confidence), the health record
 * every agent reports, and the confidence formula all agents share.
 */
module AgentApi {
  import opened Wrappers

  /**
   * An agent's reply as the synthesizer sees it. A reply without an
   * "insights" or "recommendations" key contributes exactly what an empty
   * list contributes; the "confidence" key may be absent.
   */
  datatype Reply = Reply(insights: seq<string>, recommendations: seq<string>, confidence: Option<real>)

  /** What an agent's `health_check` returns: status, name and module path ("version"). */
  datatype Health = Health(status: string, name: string, version: string)

  function Min(a: real, b: real): real
  {
    if a <= b then a else b
  }

  /**
   * `min(0.9, 0.3 + 0.2 * len(insights) + 0.1 * len(recommendations))`,
   * the confidence every agent assigns to its own reply.
   */
  function Confidence(insightCount: nat, recommendationCount: nat): (c: real)
    ensures 0.3 <= c <= 0.9
    ensures c == 0.9 <==> 3 + 2 * insightCount + recommendationCount >= 9
    ensures c < 0.9 ==> c * 10.0 == (3 + 2 * insightCount + recommendationCount) as real
  {
    Min(0.9, 0.3 + 0.2 * insightCount as real + 0.1 * recommendationCount as real)
  }

  /** More insights or recommendations never lower an agent's confidence. */
  lemma ConfidenceMonotone(i: nat, r: nat, i': nat, r': nat)
    requires i <= i' && r <= r'
    ensures Confidence(i, r) <= Confidence(i', r')
  {
  }
}
