/** What fitting a request to the window means (internal/engine/turn/context_budget.go,
    internal/core/conversation/compaction.go), told by token counts. */
module ContextMeaning {
  import opened Retention
  import opened ContextBudget

  // ---------- what is set aside for the answer ----------

  /** A stated request is set aside in full, as far as the window goes. Otherwise an eighth of the window,
      at least 256 and at most 8192 tokens, or a quarter of a window too small for that. */
  lemma {:induction false} ReserveMeans(window: nat, requested: nat)
    requires window > 0
    ensures 0 < requested <= window ==> OutputReserve(window, requested) == requested
    ensures requested > window ==> OutputReserve(window, requested) == window
    ensures requested == 0 && window <= 256 ==> 4 * OutputReserve(window, requested) <= window < 4 * OutputReserve(window, requested) + 4
    ensures requested == 0 && 256 < window < 2048 ==> OutputReserve(window, requested) == 256
    ensures requested == 0 && 2048 <= window < 65536 ==> 8 * OutputReserve(window, requested) <= window < 8 * OutputReserve(window, requested) + 8
    ensures requested == 0 && window >= 65536 ==> OutputReserve(window, requested) == 8192
  {
  }

  /** A limit on the answer caps the unstated reserve and nothing else. */
  lemma {:induction false} CappedReserveMeans(l: Limits, requested: nat)
    ensures requested > 0 || l.maxOutput <= 0 ==> Reserve(l, requested) == OutputReserve(l.contextWindow, requested)
    ensures requested == 0 && l.maxOutput > 0 ==>
              Reserve(l, requested) == if OutputReserve(l.contextWindow, 0) < l.maxOutput then OutputReserve(l.contextWindow, 0) else l.maxOutput
  {
  }

  // ---------- the validator ----------

  /** A request goes out when it is within every limit that is set: input, answer, and window with the
      reserve; the first one broken names the refusal. */
  lemma {:induction false} ValidatorMeans(l: Limits, requested: nat, estimated: nat)
    ensures var input := l.maxInput <= 0 || estimated <= l.maxInput;
            var output := l.maxOutput <= 0 || requested <= l.maxOutput;
            var window := l.contextWindow <= 0 || estimated + Reserve(l, requested) <= l.contextWindow;
            && (Validate(l, requested, estimated) == Accepted <==> input && output && window)
            && (Validate(l, requested, estimated) == InputTooLong <==> !input)
            && (Validate(l, requested, estimated) == OutputTooLong <==> input && !output)
            && (Validate(l, requested, estimated) == WindowExceeded <==> input && output && !window)
  {
  }

  /** The budget is what the window leaves beside the reserve, or the input limit when that is smaller. */
  lemma {:induction false} BudgetMeans(l: Limits, requested: nat)
    ensures l.contextWindow > 0 ==>
              && 0 <= EffectiveInputBudget(l, requested)
              && (EffectiveInputBudget(l, requested) + Reserve(l, requested) <= l.contextWindow || EffectiveInputBudget(l, requested) == 0)
              && (EffectiveInputBudget(l, requested) + Reserve(l, requested) < l.contextWindow ==> EffectiveInputBudget(l, requested) == l.maxInput > 0)
              && (l.maxInput > 0 ==> EffectiveInputBudget(l, requested) <= l.maxInput)
    ensures l.contextWindow <= 0 ==> EffectiveInputBudget(l, requested) == l.maxInput
  {
  }

  // ---------- when compaction is due ----------

  predicate Reaches(input: int, budget: int, threshold: real) {
    input as real >= threshold * budget as real
  }

  /** The stage is the highest threshold the input reaches, tried from the top. */
  lemma {:induction false} StageMeans(input: nat, budget: int, p: Thresholds)
    requires input > 0 && budget > 0
    ensures var stage := PlanCompaction(input, budget, p).stage;
            && (stage == Emergency <==> Reaches(input, budget, p.emergency))
            && (stage == Aggressive <==> !Reaches(input, budget, p.emergency) && Reaches(input, budget, p.aggressive))
            && (stage == Medium <==> !Reaches(input, budget, p.emergency) && !Reaches(input, budget, p.aggressive) && Reaches(input, budget, p.medium))
            && (stage == Soft <==> !Reaches(input, budget, p.emergency) && !Reaches(input, budget, p.aggressive) && !Reaches(input, budget, p.medium)
                                   && Reaches(input, budget, p.soft))
  {
    RatioReaches(input, budget, p.emergency);
    RatioReaches(input, budget, p.aggressive);
    RatioReaches(input, budget, p.medium);
    RatioReaches(input, budget, p.soft);
  }

  lemma {:induction false} RatioReaches(input: int, budget: int, threshold: real)
    requires budget > 0
    ensures input as real / budget as real >= threshold <==> Reaches(input, budget, threshold)
  {
    var ratio, b := input as real / budget as real, budget as real;
    assert ratio * b == input as real;
    if ratio >= threshold { assert ratio * b >= threshold * b; } else { assert ratio * b < threshold * b; }
  }

  /** The target is the whole number of tokens in that share of the budget, and never nothing. */
  lemma {:induction false} TargetMeans(input: nat, budget: int, p: Thresholds)
    requires PlanCompaction(input, budget, p).stage != NoCompaction
    ensures var target, share := PlanCompaction(input, budget, p).target, p.target * budget as real;
            && (share >= 1.0 ==> target as real <= share < target as real + 1.0)
            && (share < 1.0 ==> target == 1)
  {
    assert budget as real * p.target == p.target * budget as real;
  }

  /** Without input or budget nothing is due. */
  lemma {:induction false} NothingIsDue(input: int, budget: int, p: Thresholds)
    requires input <= 0 || budget <= 0
    ensures PlanCompaction(input, budget, p) == Decision(NoCompaction, 0)
  {
  }

  /** Compaction is due for a history that is there, when the request reaches some threshold. */
  lemma {:induction false} DueMeans(messages: seq<Message>, budget: int, p: Thresholds, tokens: Tokens)
    requires tokens(messages).Some? && tokens(messages).value > 0 && budget > 0
    ensures Due(messages, budget, p, tokens) <==>
            var input := tokens(messages).value;
            messages != [] && (Reaches(input, budget, p.soft) || Reaches(input, budget, p.medium) || Reaches(input, budget, p.aggressive) || Reaches(input, budget, p.emergency))
  {
    StageMeans(tokens(messages).value, budget, p);
  }

  // ---------- what compaction reaches ----------

  /** The goal for a whole request: the target, or one token beyond the fixed part when that fills it. */
  function Goal(target: int, fixedTokens: nat): int {
    if target <= fixedTokens then fixedTokens + 1 else target
  }

  predicate Meets(tokens: Tokens, goal: int, ms: seq<Message>) {
    tokens(ms).Some? && tokens(ms).value <= goal
  }

  lemma {:induction false} CostMeetsTarget(tokens: Tokens, fixedTokens: nat, target: int, ms: seq<Message>)
    ensures Within(MessageCost(tokens, fixedTokens), MessageTarget(target, fixedTokens), ms) <==> Meets(tokens, Goal(target, fixedTokens), ms)
    ensures MessageCost(tokens, fixedTokens)(ms).Some? <==> tokens(ms).Some?
  {
  }

  /** A compacted request either meets the goal or nothing more can be cut from it, and no longer cut of
      the same history meets it. */
  lemma {:induction false} CompactedMeansShortEnough(ms: seq<Message>, out: seq<Message>, tokens: Tokens, fixedTokens: nat, target: int)
      returns (k: nat)
    requires CompactedTo(ms, out, MessageCost(tokens, fixedTokens), MessageTarget(target, fixedTokens))
    ensures var lead, goal := LeadingSystems(ms), Goal(target, fixedTokens);
            && lead <= Boundary(ms, lead, k) && out == ms[..lead] + ms[Boundary(ms, lead, k)..]
            && (Meets(tokens, goal, out) || Boundary(ms, lead, k + 1) == |ms|)
            && (forall j: nat :: j < k ==> !Meets(tokens, goal, ms[..lead] + ms[Boundary(ms, lead, j)..]))
  {
    hide EarliestCut, MessageCost, MessageTarget, Within, Meets, Goal;
    var lead, cost, limit := LeadingSystems(ms), MessageCost(tokens, fixedTokens), MessageTarget(target, fixedTokens);
    CostMeetsTarget(tokens, fixedTokens, target, ms);
    assert ms == ms[..lead] + ms[lead..];
    if Within(cost, limit, ms) || lead == |ms| {
      k := 0;
      assert Boundary(ms, lead, 0) == lead && (lead == |ms| ==> Boundary(ms, lead, 1) == |ms|);
    } else {
      k := CutMeets(ms, out, tokens, fixedTokens, target);
    }
  }

  lemma {:induction false} CutMeets(ms: seq<Message>, out: seq<Message>, tokens: Tokens, fixedTokens: nat, target: int) returns (k: nat)
    requires EarliestCut(ms, out, c => Within(MessageCost(tokens, fixedTokens), MessageTarget(target, fixedTokens), c))
    ensures var lead, goal := LeadingSystems(ms), Goal(target, fixedTokens);
            && out == ms[..lead] + ms[Boundary(ms, lead, k)..]
            && (Meets(tokens, goal, out) || Boundary(ms, lead, k + 1) == |ms|)
            && (forall j: nat :: j < k ==> !Meets(tokens, goal, ms[..lead] + ms[Boundary(ms, lead, j)..]))
  {
    var lead, ok := LeadingSystems(ms), c => Within(MessageCost(tokens, fixedTokens), MessageTarget(target, fixedTokens), c);
    k :| && Boundary(ms, lead, k) < |ms| && out == Candidate(ms, lead, Boundary(ms, lead, k))
         && (forall j: nat :: j < k ==> !ok(Candidate(ms, lead, Boundary(ms, lead, j))))
         && (ok(out) || Boundary(ms, lead, k + 1) == |ms|);
    CostMeetsTarget(tokens, fixedTokens, target, out);
    forall j: nat | j < k ensures !Meets(tokens, Goal(target, fixedTokens), ms[..lead] + ms[Boundary(ms, lead, j)..]) {
      assert !ok(Candidate(ms, lead, Boundary(ms, lead, j)));
      CostMeetsTarget(tokens, fixedTokens, target, Candidate(ms, lead, Boundary(ms, lead, j)));
    }
  }
}
