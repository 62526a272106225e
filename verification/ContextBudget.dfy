/** Fitting a request to the model's context (internal/engine/turn/context_budget.go,
    internal/core/conversation/compaction.go): the validator, the input budget it implies, the
    compaction decision, and the compaction of a request's history. */
module ContextBudget {
  import opened Retention

  datatype Limits = Limits(contextWindow: int, maxInput: int, maxOutput: int)

  datatype Verdict = Accepted | InputTooLong | OutputTooLong | WindowExceeded

  /** Output tokens set aside in the window; an unstated request takes an eighth within bounds. */
  function OutputReserve(window: int, requested: int): (reserve: int)
    ensures window > 0 ==> 0 <= reserve <= window
  {
    if requested > 0 then (if requested >= window then window else requested)
    else
      var eighth := if window >= 0 then window / 8 else -((-window) / 8);
      var reserve := if eighth < 256 then 256 else if eighth > 8192 then 8192 else eighth;
      if reserve >= window then (if window >= 0 then window / 4 else -((-window) / 4)) else reserve
  }

  function Reserve(l: Limits, requested: int): int {
    var reserve := OutputReserve(l.contextWindow, requested);
    if requested == 0 && l.maxOutput > 0 && reserve > l.maxOutput then l.maxOutput else reserve
  }

  /** The checks made right before a request is sent. */
  function Validate(l: Limits, requested: int, estimated: int): Verdict {
    if l.contextWindow <= 0 && l.maxInput <= 0 && l.maxOutput <= 0 then Accepted
    else if l.maxInput > 0 && estimated > l.maxInput then InputTooLong
    else if l.maxOutput > 0 && requested > l.maxOutput then OutputTooLong
    else if l.contextWindow <= 0 then Accepted
    else if estimated + Reserve(l, requested) <= l.contextWindow then Accepted
    else WindowExceeded
  }

  /** The input size compaction aims below. */
  function EffectiveInputBudget(l: Limits, requested: int): int {
    if l.contextWindow > 0 then
      var room := l.contextWindow - Reserve(l, requested);
      var contextBudget := if room < 0 then 0 else room;
      if l.maxInput <= 0 || contextBudget < l.maxInput then contextBudget else l.maxInput
    else l.maxInput
  }

  /** For a request within the output limit, the validator and the budget agree exactly when some
      window or input limit is set; with neither, everything is accepted. */
  lemma {:induction false} ValidatorAgreesWithBudget(l: Limits, requested: nat)
    requires l.maxOutput <= 0 || requested <= l.maxOutput
    ensures (forall estimated: nat :: Validate(l, requested, estimated) == Accepted <==> estimated <= EffectiveInputBudget(l, requested))
            <==> l.contextWindow > 0 || l.maxInput > 0
  {
    if l.contextWindow <= 0 && l.maxInput <= 0 {
      var estimated := 1;
      assert Validate(l, requested, estimated) == Accepted;
    }
  }

  // ---------- the compaction decision ----------

  datatype Stage = NoCompaction | Soft | Medium | Aggressive | Emergency

  datatype Thresholds = Thresholds(soft: real, medium: real, aggressive: real, emergency: real, target: real, minRecent: int)

  datatype Decision = Decision(stage: Stage, target: int)

  function PlanCompaction(input: int, budget: int, p: Thresholds): Decision {
    if input <= 0 || budget <= 0 then Decision(NoCompaction, 0)
    else
      var ratio := input as real / budget as real;
      var stage := if ratio >= p.emergency then Emergency
                   else if ratio >= p.aggressive then Aggressive
                   else if ratio >= p.medium then Medium
                   else if ratio >= p.soft then Soft
                   else NoCompaction;
      if stage == NoCompaction then Decision(NoCompaction, 0)
      else
        var target := (budget as real * p.target).Floor;
        Decision(stage, if target < 1 then 1 else target)
  }

  /** A request that needs no compaction is within the budget, and the target never exceeds it. */
  lemma {:induction false} PlanIsSafe(input: int, budget: int, p: Thresholds)
    requires budget > 0 && p.soft <= 1.0 && p.target <= 1.0
    ensures var d := PlanCompaction(input, budget, p);
            && (d.stage == NoCompaction ==> input <= budget)
            && (d.stage != NoCompaction ==> 1 <= d.target <= budget)
  {
    ProductBelow(budget, p.target);
    if input > budget {
      assert input as real / budget as real > 1.0;
    }
  }

  lemma {:induction false} ProductBelow(budget: int, ratio: real)
    requires budget > 0 && ratio <= 1.0
    ensures (budget as real * ratio).Floor <= budget
  {
    assert budget as real * ratio <= budget as real;
  }

  // ---------- compacting a request ----------

  /** Tokens of the request with the given history; None is an estimator error. */
  type Tokens = seq<Message> -> Option<nat>

  function MessageCost(tokens: Tokens, fixedTokens: nat): CostEstimator {
    ms => match tokens(ms)
          case None => None
          case Some(t) => Some(if t <= fixedTokens then 0 else t - fixedTokens)
  }

  function MessageTarget(target: int, fixedTokens: nat): int {
    if target - fixedTokens < 1 then 1 else target - fixedTokens
  }

  /** Nothing can be cut: only leading systems, or nothing but the newest span after them, is left. */
  ghost predicate Minimal(ms: seq<Message>, out: seq<Message>) {
    var lead := LeadingSystems(ms);
    if lead == |ms| then out == ms
    else exists k: nat :: Boundary(ms, lead, k) < |ms| && Boundary(ms, lead, k + 1) == |ms| && out == Cut(ms, k)
  }

  /** History as compaction leaves it: tool groups told as text, then cut at the earliest boundary
      whose estimate meets the target, or down to the newest span. */
  ghost predicate CompactedTo(ms: seq<Message>, out: seq<Message>, cost: CostEstimator, target: int) {
    if Within(cost, target, ms) || LeadingSystems(ms) == |ms| then out == ms
    else EarliestCut(ms, out, c => Within(cost, target, c))
  }

  /** The estimator has no answer for the history itself or, when compaction is due, for the request
      without history or one of the cuts it is asked about in turn. */
  ghost predicate EstimatorFails(render: Renderer, messages: seq<Message>, budget: int, p: Thresholds, tokens: Tokens) {
    || tokens(messages).None?
    || (&& Due(messages, budget, p, tokens)
        && (|| tokens([]).None?
            || exists k: nat :: FailsAt(Compacted(render, messages, p.minRecent, 2048), MessageCost(tokens, tokens([]).value),
                                        MessageTarget(PlanCompaction(tokens(messages).value, budget, p).target, tokens([]).value), k)))
  }

  /** Compaction is due for a history the estimator can price. */
  predicate Due(messages: seq<Message>, budget: int, p: Thresholds, tokens: Tokens)
    requires tokens(messages).Some?
  {
    messages != [] && PlanCompaction(tokens(messages).value, budget, p).stage != NoCompaction
  }

  /** What a request's history becomes. */
  ghost predicate Prepared(render: Renderer, messages: seq<Message>, budget: int, p: Thresholds, tokens: Tokens, out: seq<Message>)
    requires tokens(messages).Some? && tokens([]).Some?
  {
    if Due(messages, budget, p, tokens) then
      CompactedTo(Compacted(render, messages, p.minRecent, 2048), out, MessageCost(tokens, tokens([]).value),
                  MessageTarget(PlanCompaction(tokens(messages).value, budget, p).target, tokens([]).value))
    else out == messages
  }

  /** History after compaction: unchanged when none is due, otherwise trimmed until the estimate meets
      the target or only the newest span is left. It fails if and only if the estimator does. */
  method CompactRequest(render: Renderer, messages: seq<Message>, l: Limits, requested: nat, p: Thresholds, tokens: Tokens)
      returns (out: Option<seq<Message>>, decision: Decision)
    ensures out.None? <==> EstimatorFails(render, messages, EffectiveInputBudget(l, requested), p, tokens)
    ensures tokens(messages).Some? ==> decision == PlanCompaction(tokens(messages).value, EffectiveInputBudget(l, requested), p)
    ensures out.Some? && !Due(messages, EffectiveInputBudget(l, requested), p, tokens) ==> out == Some(messages)
    ensures out.Some? && Due(messages, EffectiveInputBudget(l, requested), p, tokens) ==>
              Prepared(render, messages, EffectiveInputBudget(l, requested), p, tokens, out.value)
    ensures out.Some? ==> tokens(out.value).Some?
    ensures NoOrphans(messages) && out.Some? ==> NoOrphans(out.value)
  {
    var estimated := tokens(messages);
    if estimated.None? { return None, Decision(NoCompaction, 0); }
    decision := PlanCompaction(estimated.value, EffectiveInputBudget(l, requested), p);
    if decision.stage == NoCompaction || |messages| == 0 { return Some(messages), decision; }
    var fixedTokens := tokens([]);
    if fixedTokens.None? { return None, decision; }
    var target := MessageTarget(decision.target, fixedTokens.value);
    out := RetainByCost(render, messages, p.minRecent, 2048, target, MessageCost(tokens, fixedTokens.value));
  }

  /** A compacted history meets the target or cannot be cut further. */
  lemma {:induction false} CompactedMeetsTargetOrIsMinimal(ms: seq<Message>, out: seq<Message>, tokens: Tokens, fixedTokens: nat, target: int)
    requires target >= 1 && CompactedTo(ms, out, MessageCost(tokens, fixedTokens), target)
    ensures (tokens(out).Some? && tokens(out).value <= fixedTokens + target) || Minimal(ms, out)
  {
    var cost := MessageCost(tokens, fixedTokens);
    if !Within(cost, target, ms) && LeadingSystems(ms) != |ms| {
      var lead, ok := LeadingSystems(ms), c => Within(cost, target, c);
      var k: nat :| && Boundary(ms, lead, k) < |ms| && out == Candidate(ms, lead, Boundary(ms, lead, k))
                    && (ok(out) || Boundary(ms, lead, k + 1) == |ms|);
      assert out == Cut(ms, k);
    }
  }

  /** Compact, then validate; only an estimator error gives nothing back. When limits are set and the
      request is within the output limit, it is refused only if the budget itself is empty, or it was
      compacted and either the part that is not history already fills the target or nothing but the
      newest span is left to drop. */
  method PrepareRequest(render: Renderer, messages: seq<Message>, l: Limits, requested: nat, p: Thresholds, tokens: Tokens)
      returns (out: Option<seq<Message>>, verdict: Verdict)
    requires p.soft <= 1.0 && p.target <= 1.0
    requires l.maxOutput <= 0 || requested <= l.maxOutput
    requires l.contextWindow > 0 || l.maxInput > 0
    ensures out.None? <==> EstimatorFails(render, messages, EffectiveInputBudget(l, requested), p, tokens)
    ensures out.Some? && !Due(messages, EffectiveInputBudget(l, requested), p, tokens) ==> out == Some(messages)
    ensures out.Some? && Due(messages, EffectiveInputBudget(l, requested), p, tokens) ==>
              Prepared(render, messages, EffectiveInputBudget(l, requested), p, tokens, out.value)
    ensures NoOrphans(messages) && out.Some? ==> NoOrphans(out.value)
    ensures out.Some? ==> tokens(out.value).Some? && verdict == Validate(l, requested, tokens(out.value).value)
    ensures out.Some? ==> (verdict == Accepted <==> tokens(out.value).value <= EffectiveInputBudget(l, requested))
    ensures out.Some? && verdict != Accepted ==>
              var budget := EffectiveInputBudget(l, requested);
              var decision := PlanCompaction(tokens(messages).value, budget, p);
              || budget <= 0
              || (decision.stage != NoCompaction && tokens([]).value >= decision.target)
              || (Due(messages, budget, p, tokens) && Minimal(Compacted(render, messages, p.minRecent, 2048), out.value))
  {
    var decision;
    out, decision := CompactRequest(render, messages, l, requested, p, tokens);
    verdict := Accepted;
    if out.None? { return; }
    verdict := Validate(l, requested, tokens(out.value).value);
    var budget := EffectiveInputBudget(l, requested);
    ValidatorAgreesWithBudget(l, requested);
    if budget > 0 { PlanIsSafe(tokens(messages).value, budget, p); }
    if Due(messages, budget, p, tokens) {
      CompactedMeetsTargetOrIsMinimal(Compacted(render, messages, p.minRecent, 2048), out.value, tokens, tokens([]).value,
                                      MessageTarget(decision.target, tokens([]).value));
    }
  }
}
