/** The model/tool turn loop (internal/engine/turn: loop, safety_budget, grounding, round_request,
    round_execution, round_result). The model, the tools, the progress guard's verdict, the
    runtime-context provider and every failing call are an arbitrary script, one entry a round. */
module TurnLoop {
  import opened Text

  /** `wellFormed` says that the trimmed arguments are empty or valid JSON. */
  datatype ToolCall = ToolCall(id: string, name: string, wellFormed: bool)

  datatype Message = Assistant(text: string, calls: seq<ToolCall>) | ToolReply(callID: string)

  /** What the tool layer says of one call. */
  datatype Outcome = Outcome(suppressed: bool, advances: bool, evidence: bool)

  datatype Execution = Execution(callID: string, outcome: Outcome)

  datatype Tools = Published | NoTools | ModelCannot

  /** Whether finishing is deferred for runtime context, and with how many new messages. */
  datatype Completion = Clear | Deferred(messages: nat)

  datatype Fault =
    | NoFault | DrainFault | PrepareFault | RoundFault | LateRoundFault | FallbackFault | GuardFault
    | FlushFault | RuntimeFault | EncodingFault | CompletionSinkFault

  datatype RoundInput = RoundInput(
    arrived: bool, tools: Tools, text: string, requested: seq<ToolCall>, outcome: nat -> Outcome,
    stalled: bool, completion: Completion, fault: Fault)

  datatype Config = Config(maxStagnant: int, hardLimit: nat, needsEvidence: bool)

  /** The hard ceiling of a turn: the smaller of the two configured limits, zero meaning none. */
  function HardLimit(maxToolCalls: nat, emergencyMax: nat): nat {
    if maxToolCalls > 0 && (emergencyMax == 0 || maxToolCalls < emergencyMax) then maxToolCalls else emergencyMax
  }

  /** Loop variables, with counters that only log: what kind each finished round was, how many rounds
      progressed, and how many calls were handed to the tools, those of a round that then failed
      included. */
  datatype Turn = Turn(
    total: nat, stagnant: nat, noProgress: bool, safety: bool, grounded: bool, misses: nat,
    messages: seq<Message>, rounds: nat,
    executed: nat, missed: nat, deferred: nat, progressed: nat, dispatched: nat)

  datatype Fallback = ByModel | BySafetyBudget | ByNoProgress

  datatype Reason =
    | Faulted(fault: Fault) | DuplicateCall | InvalidCall | DispatchUnavailable | ModelToolsUnsupported
    | UnresolvedCall | GroundingBudgetExhausted | GroundingNotObserved

  datatype Exit = Completed(how: Fallback) | Failed(reason: Reason) | StillRunning

  datatype Next = Go(turn: Turn) | Stop(exit: Exit, turn: Turn)

  datatype Dispatch = Enabled(remaining: nat) | OffNoTools | OffModelTools | OffSafetyBudget | OffNoProgress

  datatype Result<+T> = Ok(value: T) | Err(error: Reason)

  const SAFETY_FALLBACK := "I stopped tool execution after the runtime safety budget was reached."
  const NO_PROGRESS_FALLBACK := "I stopped a repeated tool loop."

  predicate Pending(cfg: Config, t: Turn) {
    cfg.needsEvidence && !t.grounded
  }

  predicate Exhausted(cfg: Config, t: Turn) {
    (cfg.maxStagnant > 0 && t.stagnant >= cfg.maxStagnant) || (cfg.hardLimit > 0 && t.total >= cfg.hardLimit)
  }

  function DispatchFor(cfg: Config, t: Turn, tools: Tools): Dispatch {
    if t.noProgress then OffNoProgress
    else if t.safety || Exhausted(cfg, t) then OffSafetyBudget
    else match tools
      case ModelCannot => OffModelTools
      case NoTools => OffNoTools
      case Published => Enabled(if cfg.hardLimit == 0 then 0 else if t.total >= cfg.hardLimit then 0 else cfg.hardLimit - t.total)
  }

  predicate Overflows(d: Dispatch, requested: seq<ToolCall>) {
    d.Enabled? && d.remaining > 0 && |requested| > d.remaining
  }

  predicate HasDuplicateIDs(calls: seq<ToolCall>) {
    exists i, j :: 0 <= i < j < |calls| && calls[i].id == calls[j].id
  }

  predicate Translatable(c: ToolCall) {
    Trim(c.id) != "" && Trim(c.name) != "" && c.wellFormed
  }

  function Executions(calls: seq<ToolCall>, outcome: nat -> Outcome): (es: seq<Execution>)
    ensures |es| == |calls| && forall i :: 0 <= i < |es| ==> es[i] == Execution(Trim(calls[i].id), outcome(i))
  {
    seq(|calls|, i requires 0 <= i < |calls| => Execution(Trim(calls[i].id), outcome(i)))
  }

  /** One model response: its executions and the dispatch state they ran under. */
  function RoundOutcome(d: Dispatch, calls: seq<ToolCall>, outcome: nat -> Outcome): Result<(seq<Execution>, Dispatch)> {
    if HasDuplicateIDs(calls) then Err(DuplicateCall)
    else if calls == [] || !d.Enabled? then Ok(([], d))
    else if Overflows(d, calls) then Ok(([], OffSafetyBudget))
    else if exists c <- calls :: !Translatable(c) then Err(InvalidCall)
    else Ok((Executions(calls, outcome), d))
  }

  predicate Progressed(es: seq<Execution>) {
    exists e <- es :: !e.outcome.suppressed && e.outcome.advances
  }

  predicate Grounds(es: seq<Execution>) {
    exists e <- es :: !e.outcome.suppressed && e.outcome.evidence
  }

  function Replies(es: seq<Execution>): (ms: seq<Message>)
    ensures |ms| == |es| && forall i :: 0 <= i < |ms| ==> ms[i] == ToolReply(es[i].callID)
  {
    seq(|es|, i requires 0 <= i < |es| => ToolReply(es[i].callID))
  }

  function ObserveBudget(cfg: Config, t: Turn, es: seq<Execution>): Turn {
    if es == [] then t
    else if Progressed(es) then t.(total := t.total + |es|, stagnant := 0, progressed := t.progressed + 1)
    else t.(total := t.total + |es|, stagnant := t.stagnant + |es|)
  }

  function ObserveGrounding(cfg: Config, t: Turn, es: seq<Execution>): Turn {
    if Pending(cfg, t) && Grounds(es) then t.(grounded := true, misses := 0) else t
  }

  function WithFallback(text: string, addition: string): Message {
    Assistant(text + (if Trim(text) != "" then "\n\n" + addition else addition), [])
  }

  /** The assistant message after tool calls made while dispatch is off, or why the turn fails. */
  function Settle(d: Dispatch, in_: RoundInput, es: seq<Execution>): Result<(Message, Fallback)> {
    if in_.requested == [] then Ok((Assistant(in_.text, []), ByModel))
    else match d
      case OffSafetyBudget =>
        if in_.fault == FallbackFault then Err(Faulted(in_.fault)) else Ok((WithFallback(in_.text, SAFETY_FALLBACK), BySafetyBudget))
      case OffNoProgress =>
        if in_.fault == FallbackFault then Err(Faulted(in_.fault)) else Ok((WithFallback(in_.text, NO_PROGRESS_FALLBACK), ByNoProgress))
      case OffNoTools => Err(DispatchUnavailable)
      case OffModelTools => Err(ModelToolsUnsupported)
      case Enabled(_) => if es == [] then Err(UnresolvedCall) else Ok((Assistant(in_.text, in_.requested), ByModel))
  }

  /** The tail of a round: grounding miss, completion, or another round after tool results. */
  function Conclude(cfg: Config, t: Turn, in_: RoundInput, es: seq<Execution>, assistant: Message, how: Fallback): Next {
    if Pending(cfg, t) && es == [] && how.ByModel? then
      if in_.fault == FlushFault then Stop(Failed(Faulted(in_.fault)), t)
      else
        var m := t.(messages := t.messages + [assistant], misses := t.misses + 1);
        if m.misses >= 2 then Stop(Failed(GroundingNotObserved), m) else Go(m.(missed := m.missed + 1))
    else if es == [] then
      if in_.fault == RuntimeFault then Stop(Failed(Faulted(in_.fault)), t)
      else if in_.completion.Deferred? then
        Go((if in_.completion.messages > 0 then t.(noProgress := false) else t).(deferred := t.deferred + 1))
      else if in_.fault == FlushFault then Stop(Failed(Faulted(in_.fault)), t)
      else
        var done := t.(messages := t.messages + [assistant]);
        Stop(if in_.fault == CompletionSinkFault then Failed(Faulted(in_.fault)) else Completed(how), done)
    else if in_.fault == FlushFault || in_.fault == EncodingFault then Stop(Failed(Faulted(in_.fault)), t)
    else Go(t.(messages := t.messages + [assistant] + Replies(es), executed := t.executed + 1))
  }

  /** Budget, grounding and no-progress bookkeeping after a round, or why the turn fails there. */
  function Observed(cfg: Config, before: Turn, in_: RoundInput, es: seq<Execution>): (Result<()>, Turn) {
    var t := ObserveGrounding(cfg, ObserveBudget(cfg, before, es), es);
    if Exhausted(cfg, t) && Pending(cfg, t) then (Err(GroundingBudgetExhausted), t)
    else
      var t := if Exhausted(cfg, t) then t.(safety := true) else t;
      if in_.fault == GuardFault then (Err(Faulted(in_.fault)), t)
      else (Ok(()), if in_.stalled && es != [] then t.(noProgress := !Pending(cfg, t)) else t)
  }

  function Finish(cfg: Config, t: Turn, in_: RoundInput, es: seq<Execution>, d: Dispatch): Next {
    match Settle(d, in_, es)
    case Err(x) => Stop(Failed(x), t)
    case Ok((assistant, how)) =>
      match Observed(cfg, t, in_, es)
      case (Err(x), t') => Stop(Failed(x), t')
      case (Ok(_), t') => Conclude(cfg, t', in_, es, assistant, how)
  }

  /** The front of a round: runtime context, request, model response, tool dispatch. */
  function Dispatched(cfg: Config, t: Turn, in_: RoundInput): Result<(seq<Execution>, Dispatch)> {
    if in_.fault == DrainFault || in_.fault == PrepareFault || in_.fault == RoundFault then Err(Faulted(in_.fault))
    else RoundOutcome(DispatchFor(cfg, t, in_.tools), in_.requested, in_.outcome)
  }

  /** Loop variables as the round's dispatch sees them: newly arrived context lifts the no-progress flag. */
  function Entered(before: Turn, in_: RoundInput): Turn {
    before.(rounds := before.rounds + 1, noProgress := before.noProgress && (!in_.arrived || in_.fault == DrainFault))
  }

  /** After the tools ran, a cancelled round or a failing result event still fails the round. */
  predicate FailsLate(in_: RoundInput, es: seq<Execution>) {
    in_.fault == LateRoundFault && es != []
  }

  function Counted(t: Turn, es: seq<Execution>): Turn {
    t.(dispatched := t.dispatched + |es|)
  }

  function AfterDispatch(cfg: Config, t: Turn, in_: RoundInput, es: seq<Execution>, d: Dispatch): Next {
    if FailsLate(in_, es) then Stop(Failed(Faulted(in_.fault)), Counted(t, es))
    else Finish(cfg, Counted(t, es), in_, es, d)
  }

  /** One round of the loop. */
  function Step(cfg: Config, before: Turn, in_: RoundInput): Next {
    var t := Entered(before, in_);
    match Dispatched(cfg, t, in_)
    case Err(x) => Stop(Failed(x), t)
    case Ok((es, d)) => AfterDispatch(cfg, t, in_, es, d)
  }

  const START := Turn(0, 0, false, false, false, 0, [], 0, 0, 0, 0, 0, 0)

  /** The turn under a script; StillRunning when the script ends first. */
  function RunScript(cfg: Config, t: Turn, script: seq<RoundInput>): (Exit, Turn)
    decreases |script|
  {
    if script == [] then (StillRunning, t)
    else match Step(cfg, t, script[0])
      case Stop(exit, last) => (exit, last)
      case Go(next) => RunScript(cfg, next, script[1..])
  }

  // ---------- the imperative loop ----------

  class SafetyBudget {
    const maxStagnant: int
    const hardLimit: nat
    var totalCalls: nat
    var stagnantCalls: nat

    constructor (maxStagnant: int, hardLimit: nat)
      ensures totalCalls == 0 && stagnantCalls == 0 && this.maxStagnant == maxStagnant && this.hardLimit == hardLimit
    {
      this.maxStagnant, this.hardLimit := maxStagnant, hardLimit;
      totalCalls, stagnantCalls := 0, 0;
    }

    method ObserveRound(es: seq<Execution>) returns (progressed: bool)
      modifies this
      ensures totalCalls == old(totalCalls) + |es|
      ensures progressed <==> Progressed(es)
      ensures stagnantCalls == if Progressed(es) then 0 else old(stagnantCalls) + |es|
    {
      if |es| == 0 { return false; }
      totalCalls := totalCalls + |es|;
      progressed := false;
      for i := 0 to |es|
        invariant progressed <==> Progressed(es[..i])
      {
        assert es[..i + 1] == es[..i] + [es[i]];
        if !es[i].outcome.suppressed && es[i].outcome.advances { progressed := true; }
      }
      assert es[..|es|] == es;
      stagnantCalls := if progressed then 0 else stagnantCalls + |es|;
    }
  }

  class Grounding {
    const needsEvidence: bool
    var grounded: bool
    var misses: nat

    constructor (needsEvidence: bool)
      ensures !grounded && misses == 0 && this.needsEvidence == needsEvidence
    {
      this.needsEvidence := needsEvidence;
      grounded, misses := false, 0;
    }

    predicate IsPending()
      reads this
    {
      needsEvidence && !grounded
    }

    method Observe(es: seq<Execution>)
      modifies this
      ensures grounded == (old(grounded) || (needsEvidence && Grounds(es)))
      ensures misses == if old(IsPending()) && Grounds(es) then 0 else old(misses)
    {
      if !IsPending() { return; }
      for i := 0 to |es|
        invariant !Grounds(es[..i]) && !grounded && misses == old(misses)
      {
        assert es[..i + 1] == es[..i] + [es[i]];
        if !es[i].outcome.suppressed && es[i].outcome.evidence {
          assert es[i] in es;
          grounded, misses := true, 0;
          return;
        }
      }
      assert es[..|es|] == es;
    }

    method RecordMiss() returns (giveUp: bool)
      requires IsPending()
      modifies this`misses
      ensures misses == old(misses) + 1 && giveUp == (misses >= 2)
    {
      misses := misses + 1;
      giveUp := misses >= 2;
    }
  }

  /** Suppressed calls keep their slot, the others are executed in order and put back by index. */
  method MergeExecutions(calls: seq<ToolCall>, outcome: nat -> Outcome) returns (executions: seq<Execution>)
    ensures executions == Executions(calls, outcome)
  {
    executions := seq(|calls|, _ => Execution("", Outcome(false, false, false)));
    var pendingIndexes: seq<nat> := [];
    for i := 0 to |calls|
      invariant |executions| == |calls|
      invariant forall k :: 0 <= k < |pendingIndexes| ==> pendingIndexes[k] < i
      invariant forall j :: 0 <= j < i ==> j in pendingIndexes || executions[j] == Execution(Trim(calls[j].id), outcome(j))
    {
      ghost var before := pendingIndexes;
      if outcome(i).suppressed {
        executions := executions[i := Execution(Trim(calls[i].id), outcome(i))];
      } else {
        pendingIndexes := pendingIndexes + [i];
        assert pendingIndexes[|before|] == i;
      }
      assert forall j :: j in before ==> j in pendingIndexes;
    }
    var dispatched := seq(|pendingIndexes|, k requires 0 <= k < |pendingIndexes| =>
      Execution(Trim(calls[pendingIndexes[k]].id), outcome(pendingIndexes[k])));
    for k := 0 to |dispatched|
      invariant |executions| == |calls|
      invariant forall j :: 0 <= j < |calls| ==> j in pendingIndexes[k..] || executions[j] == Execution(Trim(calls[j].id), outcome(j))
    {
      assert pendingIndexes[k..] == [pendingIndexes[k]] + pendingIndexes[k + 1..];
      executions := executions[pendingIndexes[k] := dispatched[k]];
    }
  }

  method FindDuplicate(calls: seq<ToolCall>) returns (found: bool)
    ensures found <==> HasDuplicateIDs(calls)
  {
    var seen: set<string> := {};
    for i := 0 to |calls|
      invariant seen == set k | 0 <= k < i :: calls[k].id
      invariant forall a, b :: 0 <= a < b < i ==> calls[a].id != calls[b].id
    {
      if calls[i].id in seen { return true; }
      seen := seen + {calls[i].id};
    }
    return false;
  }

  method RunRound(d: Dispatch, calls: seq<ToolCall>, outcome: nat -> Outcome) returns (r: Result<(seq<Execution>, Dispatch)>)
    ensures r == RoundOutcome(d, calls, outcome)
  {
    var duplicate := FindDuplicate(calls);
    if duplicate { return Err(DuplicateCall); }
    if |calls| == 0 || !d.Enabled? { return Ok(([], d)); }
    if d.remaining > 0 && |calls| > d.remaining { return Ok(([], OffSafetyBudget)); }
    for i := 0 to |calls|
      invariant forall j :: 0 <= j < i ==> Translatable(calls[j])
    {
      if !Translatable(calls[i]) {
        assert calls[i] in calls;
        return Err(InvalidCall);
      }
    }
    var executions := MergeExecutions(calls, outcome);
    return Ok((executions, d));
  }

  /** The objects the loop updates agree with its record. */
  ghost predicate Tracks(cfg: Config, t: Turn, budget: SafetyBudget, grounding: Grounding)
    reads budget, grounding
  {
    && budget.maxStagnant == cfg.maxStagnant && budget.hardLimit == cfg.hardLimit && grounding.needsEvidence == cfg.needsEvidence
    && budget.totalCalls == t.total && budget.stagnantCalls == t.stagnant
    && grounding.grounded == t.grounded && grounding.misses == t.misses
  }

  method ConcludeRound(cfg: Config, grounding: Grounding, turn: Turn, in_: RoundInput, executions: seq<Execution>, assistant: Message, how: Fallback)
      returns (next: Next)
    requires grounding.needsEvidence == cfg.needsEvidence && grounding.grounded == turn.grounded && grounding.misses == turn.misses
    modifies grounding
    ensures next == Conclude(cfg, turn, in_, executions, assistant, how)
    ensures grounding.grounded == next.turn.grounded && grounding.misses == next.turn.misses
  {
    var messages, forceNoProgress := turn.messages, turn.noProgress;
    if grounding.IsPending() && |executions| == 0 && how.ByModel? {
      if in_.fault == FlushFault { return Stop(Failed(Faulted(in_.fault)), turn); }
      messages := messages + [assistant];
      var giveUp := grounding.RecordMiss();
      var t := turn.(messages := messages, misses := grounding.misses);
      return if giveUp then Stop(Failed(GroundingNotObserved), t) else Go(t.(missed := t.missed + 1));
    }
    if |executions| == 0 {
      if in_.fault == RuntimeFault { return Stop(Failed(Faulted(in_.fault)), turn); }
      if in_.completion.Deferred? {
        if in_.completion.messages > 0 { forceNoProgress := false; }
        return Go(turn.(noProgress := forceNoProgress, deferred := turn.deferred + 1));
      }
      if in_.fault == FlushFault { return Stop(Failed(Faulted(in_.fault)), turn); }
      messages := messages + [assistant];
      return Stop(if in_.fault == CompletionSinkFault then Failed(Faulted(in_.fault)) else Completed(how), turn.(messages := messages));
    }
    if in_.fault == FlushFault || in_.fault == EncodingFault { return Stop(Failed(Faulted(in_.fault)), turn); }
    messages := messages + [assistant] + Replies(executions);
    next := Go(turn.(messages := messages, executed := turn.executed + 1));
  }

  /** Safety budget, grounding and the no-progress flag after a settled round. */
  method ObserveExecutions(cfg: Config, budget: SafetyBudget, grounding: Grounding, before: Turn, in_: RoundInput, executions: seq<Execution>)
      returns (failed: Result<()>, turn: Turn)
    requires Tracks(cfg, before, budget, grounding)
    modifies budget, grounding
    ensures Tracks(cfg, turn, budget, grounding)
    ensures (failed, turn) == Observed(cfg, before, in_, executions)
  {
    var progressed := budget.ObserveRound(executions);
    grounding.Observe(executions);
    turn := before.(total := budget.totalCalls, stagnant := budget.stagnantCalls, grounded := grounding.grounded, misses := grounding.misses);
    if progressed { turn := turn.(progressed := turn.progressed + 1); }
    assert executions == [] ==> !Grounds(executions) && !Progressed(executions);
    if Exhausted(cfg, turn) {
      if grounding.IsPending() { return Err(GroundingBudgetExhausted), turn; }
      turn := turn.(safety := true);
    }
    if in_.fault == GuardFault { return Err(Faulted(in_.fault)), turn; }
    if in_.stalled && |executions| > 0 { turn := turn.(noProgress := !grounding.IsPending()); }
    return Ok(()), turn;
  }

  method FinishRound(cfg: Config, budget: SafetyBudget, grounding: Grounding, before: Turn, in_: RoundInput, executions: seq<Execution>, d: Dispatch)
      returns (next: Next)
    requires Tracks(cfg, before, budget, grounding)
    modifies budget, grounding
    ensures next == Finish(cfg, before, in_, executions, d)
    ensures next.Go? ==> Tracks(cfg, next.turn, budget, grounding)
  {
    var settled := Settle(d, in_, executions);
    if settled.Err? { return Stop(Failed(settled.error), before); }
    var failed, turn := ObserveExecutions(cfg, budget, grounding, before, in_, executions);
    if failed.Err? { return Stop(Failed(failed.error), turn); }
    next := ConcludeRound(cfg, grounding, turn, in_, executions, settled.value.0, settled.value.1);
  }

  method EnterRound(cfg: Config, before: Turn, in_: RoundInput) returns (r: Result<(seq<Execution>, Dispatch)>, turn: Turn)
    ensures turn == Entered(before, in_) && r == Dispatched(cfg, turn, in_)
  {
    turn := before.(rounds := before.rounds + 1);
    if in_.fault == DrainFault { return Err(Faulted(in_.fault)), turn; }
    if in_.arrived { turn := turn.(noProgress := false); }
    if in_.fault == PrepareFault || in_.fault == RoundFault { return Err(Faulted(in_.fault)), turn; }
    r := RunRound(DispatchFor(cfg, turn, in_.tools), in_.requested, in_.outcome);
  }

  method LeaveDispatch(cfg: Config, budget: SafetyBudget, grounding: Grounding, before: Turn, in_: RoundInput, executions: seq<Execution>, d: Dispatch)
      returns (next: Next)
    requires Tracks(cfg, before, budget, grounding)
    modifies budget, grounding
    ensures next == AfterDispatch(cfg, before, in_, executions, d)
    ensures next.Go? ==> Tracks(cfg, next.turn, budget, grounding)
  {
    if FailsLate(in_, executions) { return Stop(Failed(Faulted(in_.fault)), Counted(before, executions)); }
    assert Tracks(cfg, Counted(before, executions), budget, grounding);
    next := FinishRound(cfg, budget, grounding, Counted(before, executions), in_, executions, d);
  }

  method RunOneRound(cfg: Config, budget: SafetyBudget, grounding: Grounding, before: Turn, in_: RoundInput) returns (next: Next)
    requires Tracks(cfg, before, budget, grounding)
    modifies budget, grounding
    ensures next == Step(cfg, before, in_)
    ensures next.Go? ==> Tracks(cfg, next.turn, budget, grounding)
  {
    var outcome, turn := EnterRound(cfg, before, in_);
    if outcome.Err? { return Stop(Failed(outcome.error), turn); }
    next := LeaveDispatch(cfg, budget, grounding, turn, in_, outcome.value.0, outcome.value.1);
  }

  method Run(cfg: Config, script: seq<RoundInput>) returns (exit: Exit, turn: Turn)
    ensures (exit, turn) == RunScript(cfg, START, script)
  {
    var budget := new SafetyBudget(cfg.maxStagnant, cfg.hardLimit);
    var grounding := new Grounding(cfg.needsEvidence);
    turn := START;
    for round := 0 to |script|
      invariant fresh(budget) && fresh(grounding) && Tracks(cfg, turn, budget, grounding)
      invariant RunScript(cfg, turn, script[round..]) == RunScript(cfg, START, script)
    {
      assert script[round..][0] == script[round] && script[round..][1..] == script[round + 1..];
      var next := RunOneRound(cfg, budget, grounding, turn, script[round]);
      turn := next.turn;
      if next.Stop? { return next.exit, turn; }
    }
    exit := StillRunning;
  }
}
