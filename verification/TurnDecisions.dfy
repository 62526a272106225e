/** What one round of a turn decides (internal/engine/turn: loop, safety_budget, grounding, round_request,
    round_execution), as one flat table over the round's inputs and what came before. */
module TurnDecisions {
  import opened Text
  import opened TurnLoop
  import opened TurnLoopProperties

  // ---------- what the round meets ----------

  predicate FailsEarly(in_: RoundInput) {
    in_.fault == DrainFault || in_.fault == PrepareFault || in_.fault == RoundFault
  }

  predicate RepeatsID(calls: seq<ToolCall>) {
    exists i, j :: 0 <= i < |calls| && 0 <= j < |calls| && i != j && calls[i].id == calls[j].id
  }

  predicate Usable(call: ToolCall) {
    !OnlySpaces(call.id) && !OnlySpaces(call.name) && call.wellFormed
  }

  /** A limit that is set has been used up. */
  predicate Spent(cfg: Config, total: nat, stagnant: nat) {
    (cfg.maxStagnant > 0 && stagnant >= cfg.maxStagnant) || (cfg.hardLimit > 0 && total >= cfg.hardLimit)
  }

  /** Synthesis is still forced: nothing new arrived. */
  predicate Forced(t: Turn, in_: RoundInput) {
    t.noProgress && !in_.arrived
  }

  predicate GuardsOpen(cfg: Config, t: Turn, in_: RoundInput) {
    !Forced(t, in_) && !t.safety && !Spent(cfg, t.total, t.stagnant)
  }

  predicate TooMany(cfg: Config, t: Turn, in_: RoundInput) {
    cfg.hardLimit > 0 && t.total + |in_.requested| > cfg.hardLimit
  }

  /** The round's calls are handed to the tools. */
  predicate Runs(cfg: Config, t: Turn, in_: RoundInput) {
    && !FailsEarly(in_) && in_.requested != [] && !RepeatsID(in_.requested)
    && in_.tools == Published && GuardsOpen(cfg, t, in_) && !TooMany(cfg, t, in_)
    && forall i :: 0 <= i < |in_.requested| ==> Usable(in_.requested[i])
  }

  predicate Advances(in_: RoundInput) {
    exists i :: 0 <= i < |in_.requested| && !in_.outcome(i).suppressed && in_.outcome(i).advances
  }

  predicate GivesEvidence(in_: RoundInput) {
    exists i :: 0 <= i < |in_.requested| && !in_.outcome(i).suppressed && in_.outcome(i).evidence
  }

  // ---------- the table ----------

  datatype Decision = Fails(reason: Reason) | Executed | Missed | Postponed | Answers(how: Fallback)

  /** Who speaks for calls that do not run: nobody was asked, or the guard that stopped them. */
  function Speaker(t: Turn, in_: RoundInput): Fallback {
    if in_.requested == [] then ByModel else if Forced(t, in_) then ByNoProgress else BySafetyBudget
  }

  function Owing(cfg: Config, t: Turn, in_: RoundInput): bool {
    cfg.needsEvidence && !t.grounded && !(Runs(cfg, t, in_) && GivesEvidence(in_))
  }

  function TotalAfter(cfg: Config, t: Turn, in_: RoundInput): nat {
    if Runs(cfg, t, in_) then t.total + |in_.requested| else t.total
  }

  function StagnantAfter(cfg: Config, t: Turn, in_: RoundInput): nat {
    if !Runs(cfg, t, in_) then t.stagnant else if Advances(in_) then 0 else t.stagnant + |in_.requested|
  }

  /** Why the round fails before its result is looked at, in the order the reasons are found. */
  function Refusal(cfg: Config, t: Turn, in_: RoundInput): Option<Reason> {
    if FailsEarly(in_) then Some(Faulted(in_.fault))
    else if RepeatsID(in_.requested) then Some(DuplicateCall)
    else if in_.requested == [] then None
    else if GuardsOpen(cfg, t, in_) && in_.tools == NoTools then Some(DispatchUnavailable)
    else if GuardsOpen(cfg, t, in_) && in_.tools == ModelCannot then Some(ModelToolsUnsupported)
    else if GuardsOpen(cfg, t, in_) && !TooMany(cfg, t, in_) then
      if !Runs(cfg, t, in_) then Some(InvalidCall)
      else if in_.fault == LateRoundFault then Some(Faulted(LateRoundFault))
      else None
    else if in_.fault == FallbackFault then Some(Faulted(FallbackFault))
    else None
  }

  datatype Option<+T> = None | Some(value: T)

  function Decide(cfg: Config, t: Turn, in_: RoundInput): Decision {
    var refusal := Refusal(cfg, t, in_);
    if refusal.Some? then Fails(refusal.value)
    else if Owing(cfg, t, in_) && Spent(cfg, TotalAfter(cfg, t, in_), StagnantAfter(cfg, t, in_)) then Fails(GroundingBudgetExhausted)
    else if in_.fault == GuardFault then Fails(Faulted(GuardFault))
    else if Runs(cfg, t, in_) then
      if in_.fault == FlushFault || in_.fault == EncodingFault then Fails(Faulted(in_.fault)) else Executed
    else if Owing(cfg, t, in_) && in_.requested == [] then
      if in_.fault == FlushFault then Fails(Faulted(FlushFault)) else if t.misses >= 1 then Fails(GroundingNotObserved) else Missed
    else if in_.fault == RuntimeFault then Fails(Faulted(RuntimeFault))
    else if in_.completion.Deferred? then Postponed
    else if in_.fault == FlushFault || in_.fault == CompletionSinkFault then Fails(Faulted(in_.fault))
    else Answers(Speaker(t, in_))
  }

  /** What the next round meets: the counters, whether evidence is still owed, and which guards are set. */
  predicate Carries(cfg: Config, t: Turn, in_: RoundInput, u: Turn, forced: bool) {
    && u.total == TotalAfter(cfg, t, in_) && u.stagnant == StagnantAfter(cfg, t, in_)
    && (cfg.needsEvidence && !u.grounded <==> Owing(cfg, t, in_))
    && u.safety == (t.safety || Spent(cfg, TotalAfter(cfg, t, in_), StagnantAfter(cfg, t, in_)))
    && u.noProgress == forced
  }

  /** The round does what the table says, and the counters and guards follow. */
  ghost predicate Matches(cfg: Config, t: Turn, in_: RoundInput, n: Next) {
    match Decide(cfg, t, in_)
    case Fails(reason) => n.Stop? && n.exit == Failed(reason)
    case Answers(how) => n.Stop? && n.exit == Completed(how)
    case Executed => n.Go? && Carries(cfg, t, in_, n.turn, if in_.stalled then !Owing(cfg, t, in_) else Forced(t, in_)) && n.turn.executed == t.executed + 1 && n.turn.missed == t.missed && n.turn.deferred == t.deferred
    case Missed => n.Go? && Carries(cfg, t, in_, n.turn, Forced(t, in_)) && n.turn.missed == t.missed + 1 && n.turn.executed == t.executed && n.turn.deferred == t.deferred
    case Postponed => n.Go? && Carries(cfg, t, in_, n.turn, Forced(t, in_) && in_.completion.messages == 0) && n.turn.deferred == t.deferred + 1 && n.turn.executed == t.executed && n.turn.missed == t.missed
  }

  // ---------- the code takes the same decisions ----------

  lemma {:induction false} RepeatsAlike(calls: seq<ToolCall>)
    ensures HasDuplicateIDs(calls) <==> RepeatsID(calls)
  {
    if i, j :| 0 <= i < |calls| && 0 <= j < |calls| && i != j && calls[i].id == calls[j].id {
      assert if i < j then calls[i].id == calls[j].id else calls[j].id == calls[i].id;
    }
  }

  lemma {:induction false} UsableAlike(call: ToolCall)
    ensures Translatable(call) <==> Usable(call)
  {
    var a, b := TrimSplits(call.id);
    var c, d := TrimSplits(call.name);
  }

  lemma {:induction false} AllUsableAlike(calls: seq<ToolCall>)
    ensures (exists c <- calls :: !Translatable(c)) <==> !(forall i :: 0 <= i < |calls| ==> Usable(calls[i]))
  {
    forall i | 0 <= i < |calls| ensures Translatable(calls[i]) <==> Usable(calls[i]) { UsableAlike(calls[i]); }
    if c :| c in calls && !Translatable(c) {
      var i :| 0 <= i < |calls| && calls[i] == c;
    }
  }

  /** Nothing but the form of the calls keeps them from the tools. */
  predicate Ready(cfg: Config, t: Turn, in_: RoundInput) {
    in_.requested != [] && in_.tools == Published && GuardsOpen(cfg, t, in_) && !TooMany(cfg, t, in_)
  }

  /** What the front of the round comes to. */
  lemma {:induction false} FrontMatches(cfg: Config, t: Turn, in_: RoundInput)
    ensures var r := Dispatched(cfg, Entered(t, in_), in_);
            && (Runs(cfg, t, in_) <==> r.Ok? && r.value.0 != [])
            && (Runs(cfg, t, in_) ==> r.value.0 == Executions(in_.requested, in_.outcome) && r.value.1.Enabled?)
            && (FailsEarly(in_) ==> r == Err(Faulted(in_.fault)))
            && (!FailsEarly(in_) && RepeatsID(in_.requested) ==> r == Err(DuplicateCall))
            && (!FailsEarly(in_) && !RepeatsID(in_.requested) && Ready(cfg, t, in_) && !Runs(cfg, t, in_) ==> r == Err(InvalidCall))
            && (r.Ok? && r.value.0 == [] && in_.requested != [] ==>
                  && (r.value.1 == OffNoProgress <==> Forced(t, in_))
                  && (r.value.1 == OffNoTools <==> GuardsOpen(cfg, t, in_) && in_.tools == NoTools)
                  && (r.value.1 == OffModelTools <==> GuardsOpen(cfg, t, in_) && in_.tools == ModelCannot)
                  && !r.value.1.Enabled?)
            && (r.Err? ==> FailsEarly(in_) || RepeatsID(in_.requested) || (Ready(cfg, t, in_) && !Runs(cfg, t, in_)))
  {
    RepeatsAlike(in_.requested);
    AllUsableAlike(in_.requested);
  }

  lemma {:induction false} EachHasItsOutcome(in_: RoundInput)
    ensures var es := Executions(in_.requested, in_.outcome);
            |es| == |in_.requested| && forall i :: 0 <= i < |es| ==> es[i] in es && es[i].outcome == in_.outcome(i)
  {
  }

  lemma {:induction false} ProgressAlike(in_: RoundInput)
    ensures Progressed(Executions(in_.requested, in_.outcome)) <==> Advances(in_)
  {
    hide Executions;
    EachHasItsOutcome(in_);
    var es := Executions(in_.requested, in_.outcome);
    if e :| e in es && !e.outcome.suppressed && e.outcome.advances {
      var i :| 0 <= i < |es| && es[i] == e;
      assert !in_.outcome(i).suppressed && in_.outcome(i).advances;
    }
    if i :| 0 <= i < |in_.requested| && !in_.outcome(i).suppressed && in_.outcome(i).advances {
      assert es[i] in es && !es[i].outcome.suppressed && es[i].outcome.advances;
    }
  }

  lemma {:induction false} EvidenceAlike(in_: RoundInput)
    ensures Grounds(Executions(in_.requested, in_.outcome)) <==> GivesEvidence(in_)
  {
    hide Executions;
    EachHasItsOutcome(in_);
    var es := Executions(in_.requested, in_.outcome);
    if e :| e in es && !e.outcome.suppressed && e.outcome.evidence {
      var i :| 0 <= i < |es| && es[i] == e;
      assert !in_.outcome(i).suppressed && in_.outcome(i).evidence;
    }
    if i :| 0 <= i < |in_.requested| && !in_.outcome(i).suppressed && in_.outcome(i).evidence {
      assert es[i] in es && !es[i].outcome.suppressed && es[i].outcome.evidence;
    }
  }

  /** The counters after the round's tools ran, or did not. */
  lemma {:induction false} CountersMatch(cfg: Config, t: Turn, in_: RoundInput, c: Turn, es: seq<Execution>)
    requires c.total == t.total && c.stagnant == t.stagnant && c.grounded == t.grounded && c.misses == t.misses
    requires es == if Runs(cfg, t, in_) then Executions(in_.requested, in_.outcome) else []
    ensures var u := ObserveGrounding(cfg, ObserveBudget(cfg, c, es), es);
            && u.total == TotalAfter(cfg, t, in_) && u.stagnant == StagnantAfter(cfg, t, in_)
            && (Pending(cfg, u) <==> Owing(cfg, t, in_)) && (Pending(cfg, u) ==> u.misses == t.misses)
            && u.executed == c.executed && u.missed == c.missed && u.deferred == c.deferred
            && u.safety == c.safety && u.noProgress == c.noProgress
  {
    hide Runs, Advances, GivesEvidence;
    ProgressAlike(in_);
    EvidenceAlike(in_);
    BudgetAndGroundingKeep(cfg, c, es);
    if es == [] { assert !Progressed(es) && !Grounds(es); }
  }

  lemma {:induction false} ObservedMatches(cfg: Config, t: Turn, in_: RoundInput, c: Turn, es: seq<Execution>)
    requires c.total == t.total && c.stagnant == t.stagnant && c.grounded == t.grounded && c.misses == t.misses
    requires es == if Runs(cfg, t, in_) then Executions(in_.requested, in_.outcome) else []
    ensures var o := Observed(cfg, c, in_, es);
            var broke := Owing(cfg, t, in_) && Spent(cfg, TotalAfter(cfg, t, in_), StagnantAfter(cfg, t, in_));
            && o.0 == (if broke then Err(GroundingBudgetExhausted) else if in_.fault == GuardFault then Err(Faulted(GuardFault)) else Ok(()))
            && o.1.total == TotalAfter(cfg, t, in_) && o.1.stagnant == StagnantAfter(cfg, t, in_)
            && (Pending(cfg, o.1) <==> Owing(cfg, t, in_)) && (Pending(cfg, o.1) ==> o.1.misses == t.misses)
            && o.1.executed == c.executed && o.1.missed == c.missed && o.1.deferred == c.deferred
            && (!broke ==> o.1.safety == (c.safety || Spent(cfg, TotalAfter(cfg, t, in_), StagnantAfter(cfg, t, in_))))
            && (o.0.Ok? ==> o.1.noProgress == if in_.stalled && es != [] then !Owing(cfg, t, in_) else c.noProgress)
  {
    hide ObserveGrounding, ObserveBudget, Runs, Owing, TotalAfter, StagnantAfter;
    CountersMatch(cfg, t, in_, c, es);
  }

  lemma {:induction false} SettleMatches(cfg: Config, t: Turn, in_: RoundInput, d: Dispatch, es: seq<Execution>)
    requires Dispatched(cfg, Entered(t, in_), in_) == Ok((es, d))
    requires !(in_.fault == LateRoundFault && es != [])
    ensures match Settle(d, in_, es)
            case Err(x) => Refusal(cfg, t, in_) == Some(x)
            case Ok(v) => Refusal(cfg, t, in_) == None && (es == [] ==> v.1 == Speaker(t, in_))
  {
    hide Dispatched;
    FrontMatches(cfg, t, in_);
  }

  lemma {:induction false} ConcludeMatches(cfg: Config, t: Turn, in_: RoundInput, u: Turn, es: seq<Execution>, assistant: Message, how: Fallback)
    requires Refusal(cfg, t, in_) == None && in_.fault != GuardFault
    requires !(Owing(cfg, t, in_) && Spent(cfg, TotalAfter(cfg, t, in_), StagnantAfter(cfg, t, in_)))
    requires Pending(cfg, u) <==> Owing(cfg, t, in_)
    requires Pending(cfg, u) ==> u.misses == t.misses
    requires u.executed == t.executed && u.missed == t.missed && u.deferred == t.deferred
    requires es != [] <==> Runs(cfg, t, in_)
    requires es == [] ==> how == Speaker(t, in_)
    requires u.total == TotalAfter(cfg, t, in_) && u.stagnant == StagnantAfter(cfg, t, in_)
    requires u.safety == (t.safety || Spent(cfg, TotalAfter(cfg, t, in_), StagnantAfter(cfg, t, in_)))
    requires u.noProgress == if in_.stalled && es != [] then !Owing(cfg, t, in_) else Forced(t, in_)
    ensures Matches(cfg, t, in_, Conclude(cfg, u, in_, es, assistant, how))
  {
    hide Refusal, Owing, TotalAfter, StagnantAfter, Spent, Runs;
  }

  /** Every round of every turn takes exactly the decision of the table. */
  lemma {:induction false} RoundDecides(cfg: Config, t: Turn, in_: RoundInput)
    ensures Matches(cfg, t, in_, Step(cfg, t, in_))
  {
    hide Dispatched, Settle, Observed, Conclude, Matches, Runs;
    var e := Entered(t, in_);
    var r := Dispatched(cfg, e, in_);
    FrontMatches(cfg, t, in_);
    if r.Err? {
      RefusedAtTheFront(cfg, t, in_);
    } else {
      var es, d := r.value.0, r.value.1;
      if FailsLate(in_, es) {
        LateFails(cfg, t, in_);
      } else {
        SettleMatches(cfg, t, in_, d, es);
        RestDecides(cfg, t, in_, es, d);
      }
    }
  }

  lemma {:induction false} RefusedAtTheFront(cfg: Config, t: Turn, in_: RoundInput)
    requires Dispatched(cfg, Entered(t, in_), in_).Err?
    ensures Matches(cfg, t, in_, Step(cfg, t, in_))
  {
    hide Dispatched;
    FrontMatches(cfg, t, in_);
  }

  lemma {:induction false} NotEarly(cfg: Config, t: Turn, in_: RoundInput)
    requires Dispatched(cfg, Entered(t, in_), in_).Ok?
    ensures !FailsEarly(in_)
  {
  }

  lemma {:induction false} LateFails(cfg: Config, t: Turn, in_: RoundInput)
    requires Runs(cfg, t, in_) && in_.fault == LateRoundFault
    ensures Matches(cfg, t, in_, Step(cfg, t, in_))
  {
    hide Dispatched;
    FrontMatches(cfg, t, in_);
  }

  lemma {:induction false} RestDecides(cfg: Config, t: Turn, in_: RoundInput, es: seq<Execution>, d: Dispatch)
    requires Dispatched(cfg, Entered(t, in_), in_) == Ok((es, d)) && !FailsLate(in_, es)
    requires es == if Runs(cfg, t, in_) then Executions(in_.requested, in_.outcome) else []
    requires es != [] <==> Runs(cfg, t, in_)
    requires match Settle(d, in_, es)
             case Err(x) => Refusal(cfg, t, in_) == Some(x)
             case Ok(v) => Refusal(cfg, t, in_) == None && (es == [] ==> v.1 == Speaker(t, in_))
    ensures Matches(cfg, t, in_, Step(cfg, t, in_))
  {
    hide Dispatched, Settle, Observed, Conclude, Runs, Refusal, Owing, TotalAfter, StagnantAfter, Spent;
    var c := Counted(Entered(t, in_), es);
    var s := Settle(d, in_, es);
    if s.Ok? {
      assert c.noProgress == Forced(t, in_) by { assert in_.fault != DrainFault by { FrontMatches(cfg, t, in_); NotEarly(cfg, t, in_); } }
      ObservedMatches(cfg, t, in_, c, es);
      var o := Observed(cfg, c, in_, es);
      if o.0.Ok? { ConcludeMatches(cfg, t, in_, o.1, es, s.value.0, s.value.1); }
    }
  }

  /** On every exit the calls handed to the tools are counted: all that were requested when the round runs
      them, a round that fails afterwards included, and none otherwise. */
  lemma {:induction false} CallsAreCounted(cfg: Config, t: Turn, in_: RoundInput)
    ensures Step(cfg, t, in_).turn.dispatched == t.dispatched + if Runs(cfg, t, in_) then |in_.requested| else 0
    ensures Step(cfg, t, in_).turn.rounds == t.rounds + 1
  {
    hide Dispatched, Runs, Settle, Conclude, Observed;
    FrontMatches(cfg, t, in_);
    var e := Entered(t, in_);
    var r := Dispatched(cfg, e, in_);
    if r.Ok? { FinishCarries(cfg, Counted(e, r.value.0), in_, r.value.0, r.value.1); }
  }

  lemma {:induction false} FinishCarries(cfg: Config, t: Turn, in_: RoundInput, es: seq<Execution>, d: Dispatch)
    ensures Finish(cfg, t, in_, es, d).turn.dispatched == t.dispatched && Finish(cfg, t, in_, es, d).turn.rounds == t.rounds
  {
    hide Settle, Conclude, Observed;
    ObservedKeeps(cfg, t, in_, es);
    var s, o := Settle(d, in_, es), Observed(cfg, t, in_, es);
    if s.Ok? && o.0.Ok? { ConcludeCounts(cfg, o.1, in_, es, s.value.0, s.value.1); }
  }
}
