/** The cost policy of one enrichment run: its routing table and its in-process budget. */
module EnrichmentPolicy {
  import opened Wrappers

  datatype Policy = Policy(
    minRelevance: real,
    minDeterministicConfidence: real,
    minFallbackConfidence: real,
    maxLlmCalls: int,
    maxLlmTokens: int,
    policyVersion: string,
    taxonomyVersion: string)

  predicate UnitInterval(x: real) {
    0.0 <= x <= 1.0
  }

  /** What construction of a policy checks. */
  predicate ValidPolicy(policy: Policy) {
    && UnitInterval(policy.minRelevance) && UnitInterval(policy.minDeterministicConfidence) && UnitInterval(policy.minFallbackConfidence)
    && policy.minFallbackConfidence <= policy.minDeterministicConfidence
    && policy.maxLlmCalls > 0 && policy.maxLlmTokens > 0
  }

  datatype Route = ByCache | ByRules | ByLlm | Skip | Defer

  /** The routing table in strict priority order; `Err` where a score is out of range. */
  function Decide(cacheHit: bool, relevance: real, confidence: real, policy: Policy, budgetAvailable: bool): Result<Route, ()> {
    if !UnitInterval(relevance) || !UnitInterval(confidence) then Err(())
    else if cacheHit then Ok(ByCache)
    else if relevance < policy.minRelevance then Ok(Skip)
    else if confidence >= policy.minDeterministicConfidence then Ok(ByRules)
    else if budgetAvailable then Ok(ByLlm)
    else Ok(Defer)
  }

  /** Reservations and usage of one run. */
  class EnrichmentBudget {
    const maxCalls: int
    const maxTokens: int
    var callsReserved: nat
    var tokensReserved: nat
    var tokensUsed: nat

    ghost predicate Valid()
      reads this
    {
      callsReserved <= maxCalls && tokensReserved <= maxTokens
    }

    constructor (maxCalls: int, maxTokens: int)
      requires maxCalls > 0 && maxTokens > 0
      ensures Valid() && this.maxCalls == maxCalls && this.maxTokens == maxTokens
      ensures callsReserved == 0 && tokensReserved == 0 && tokensUsed == 0
    {
      this.maxCalls, this.maxTokens := maxCalls, maxTokens;
      callsReserved, tokensReserved, tokensUsed := 0, 0, 0;
    }

    /** Reserve one call and its estimate exactly when both caps allow it. */
    method Reserve(estimate: int) returns (granted: Result<bool, ()>)
      requires Valid()
      modifies this`callsReserved, this`tokensReserved
      ensures Valid()
      ensures granted == if estimate <= 0 then Err(()) else
                Ok(old(callsReserved) < maxCalls && old(tokensReserved) + estimate <= maxTokens)
      ensures callsReserved == old(callsReserved) + if granted == Ok(true) then 1 else 0
      ensures tokensReserved == old(tokensReserved) + if granted == Ok(true) then estimate else 0
    {
      if estimate <= 0 {
        return Err(());
      }
      if callsReserved >= maxCalls || tokensReserved + estimate > maxTokens {
        return Ok(false);
      }
      callsReserved, tokensReserved := callsReserved + 1, tokensReserved + estimate;
      return Ok(true);
    }

    method RecordUsage(tokens: nat)
      modifies this`tokensUsed
      ensures tokensUsed == old(tokensUsed) + tokens
    {
      tokensUsed := tokensUsed + tokens;
    }
  }
}
