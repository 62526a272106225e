/** What every turn keeps, whatever the model, the tools and the runtime context do. */
module TurnLoopProperties {
  import opened Text
  import opened TurnLoop

  // ---------- termination and the call ceiling ----------

  /** Holds between rounds. Each finished round was executed, missed or deferred; at most one was
      missed; an ungrounded turn has every tool guard still off. */
  predicate Inv(cfg: Config, t: Turn) {
    && (cfg.hardLimit > 0 ==> t.total <= cfg.hardLimit)
    && t.executed <= t.total == t.dispatched
    && t.rounds == t.executed + t.missed + t.deferred
    && t.missed <= 1
    && (Pending(cfg, t) ==> t.misses == t.missed)
    && (Pending(cfg, t) ==> !t.safety && !t.noProgress && !Exhausted(cfg, t))
    && (Exhausted(cfg, t) ==> t.safety)
  }

  /** Executions happen only under an enabled dispatch, and within what the ceiling leaves. */
  lemma {:induction false} ExecutionsFitTheCeiling(cfg: Config, t: Turn, in_: RoundInput)
    requires Dispatched(cfg, t, in_).Ok?
    ensures var es, d := Dispatched(cfg, t, in_).value.0, Dispatched(cfg, t, in_).value.1;
            && (es != [] ==> d.Enabled? && !t.noProgress && !t.safety && !Exhausted(cfg, t) && es == Executions(in_.requested, in_.outcome))
            && (es != [] && cfg.hardLimit > 0 ==> t.total + |es| <= cfg.hardLimit)
  {
  }

  lemma {:induction false} BudgetAndGroundingKeep(cfg: Config, t: Turn, es: seq<Execution>)
    ensures var u := ObserveGrounding(cfg, ObserveBudget(cfg, t, es), es);
            && u.total == t.total + |es|
            && u == t.(total := u.total, stagnant := u.stagnant, progressed := u.progressed, grounded := u.grounded, misses := u.misses)
            && u.progressed == t.progressed + (if Progressed(es) then 1 else 0)
            && u.stagnant == (if Progressed(es) then 0 else t.stagnant + |es|)
            && (t.grounded ==> u.grounded) && (Pending(cfg, u) ==> Pending(cfg, t) && u.misses == t.misses)
            && (es == [] ==> u == t)
  {
    if es == [] { assert !Grounds(es) && !Progressed(es); }
  }

  lemma {:induction false} ObservedKeeps(cfg: Config, t: Turn, in_: RoundInput, es: seq<Execution>)
    ensures var r, u := Observed(cfg, t, in_, es).0, Observed(cfg, t, in_, es).1;
            && u.total == t.total + |es|
            && u.messages == t.messages && u.rounds == t.rounds && u.executed == t.executed && u.missed == t.missed && u.deferred == t.deferred && u.dispatched == t.dispatched
            && (t.grounded ==> u.grounded) && (Pending(cfg, u) ==> Pending(cfg, t) && u.misses == t.misses)
            && (r.Ok? ==> (Pending(cfg, u) ==> !Exhausted(cfg, u) && (t.safety == u.safety) && (!t.noProgress ==> !u.noProgress))
                          && (Exhausted(cfg, u) ==> u.safety))
            && (es == [] ==> u.grounded == t.grounded && u.noProgress == t.noProgress)
  {
    hide ObserveBudget, ObserveGrounding;
    BudgetAndGroundingKeep(cfg, t, es);
  }

  lemma {:induction false} ConcludeCounts(cfg: Config, t: Turn, in_: RoundInput, es: seq<Execution>, assistant: Message, how: Fallback)
    ensures var n := Conclude(cfg, t, in_, es, assistant, how);
            && n.turn.total == t.total && n.turn.dispatched == t.dispatched && n.turn.rounds == t.rounds
            && (n.Stop? ==> !n.exit.StillRunning? && n.turn.executed == t.executed && n.turn.missed == t.missed && n.turn.deferred == t.deferred)
            && (n.Go? ==>
                  n.turn.executed + n.turn.missed + n.turn.deferred == t.executed + t.missed + t.deferred + 1
                  && n.turn.executed == t.executed + (if es == [] then 0 else 1)
                  && n.turn.grounded == t.grounded && n.turn.safety == t.safety && n.turn.stagnant == t.stagnant
                  && (!t.noProgress ==> !n.turn.noProgress)
                  && (n.turn.missed != t.missed ==> Pending(cfg, t) && n.turn.missed == t.missed + 1 && n.turn.misses == t.misses + 1 < 2)
                  && (n.turn.missed == t.missed ==> n.turn.misses == t.misses))
  {
  }

  /** What a round that ended the turn leaves, the calls of a round that failed late included. */
  predicate EndCounts(cfg: Config, last: Turn) {
    && last.executed <= last.total <= last.dispatched && last.missed <= 1
    && last.rounds == last.executed + last.missed + last.deferred + 1
    && (cfg.hardLimit > 0 ==> last.dispatched <= cfg.hardLimit)
  }

  lemma {:induction false} FinishCounts(cfg: Config, t: Turn, in_: RoundInput, es: seq<Execution>, d: Dispatch)
    requires t.rounds >= 1 && Inv(cfg, t.(rounds := t.rounds - 1))
    requires cfg.hardLimit > 0 ==> t.total + |es| <= cfg.hardLimit
    ensures var n := Finish(cfg, Counted(t, es), in_, es, d);
            && (n.Go? ==> Inv(cfg, n.turn))
            && (n.Stop? ==> !n.exit.StillRunning? && EndCounts(cfg, n.turn))
  {
    var s := Settle(d, in_, es);
    var c := Counted(t, es);
    if s.Ok? {
      ObservedKeeps(cfg, c, in_, es);
      var r, u := Observed(cfg, c, in_, es).0, Observed(cfg, c, in_, es).1;
      if r.Ok? { ConcludeCounts(cfg, u, in_, es, s.value.0, s.value.1); }
    }
  }

  lemma {:induction false} StepCounts(cfg: Config, t: Turn, in_: RoundInput)
    requires Inv(cfg, t)
    ensures var n := Step(cfg, t, in_);
            && (n.Go? ==> Inv(cfg, n.turn))
            && (n.Stop? ==> !n.exit.StillRunning? && EndCounts(cfg, n.turn))
  {
    var e := Entered(t, in_);
    var r := Dispatched(cfg, e, in_);
    if r.Ok? {
      ExecutionsFitTheCeiling(cfg, e, in_);
      FinishCounts(cfg, e, in_, r.value.0, r.value.1);
    }
  }

  lemma {:induction false} ScriptCounts(cfg: Config, t: Turn, script: seq<RoundInput>)
    requires Inv(cfg, t)
    ensures var exit, last := RunScript(cfg, t, script).0, RunScript(cfg, t, script).1;
            if exit.StillRunning? then Inv(cfg, last) && last.rounds == t.rounds + |script|
            else EndCounts(cfg, last)
    decreases |script|
  {
    hide Step;
    if script == [] {
    } else {
      StepCounts(cfg, t, script[0]);
      var n := Step(cfg, t, script[0]);
      if n.Go? {
        ScriptCounts(cfg, n.turn, script[1..]);
        GoCountsRound(cfg, t, script[0]);
      }
    }
  }

  lemma {:induction false} GoCountsRound(cfg: Config, t: Turn, in_: RoundInput)
    requires Step(cfg, t, in_).Go?
    ensures Step(cfg, t, in_).turn.rounds == t.rounds + 1
  {
    var e := Entered(t, in_);
    var r := Dispatched(cfg, e, in_);
    var c := Counted(e, r.value.0);
    ObservedKeeps(cfg, c, in_, r.value.0);
    var s := Settle(r.value.1, in_, r.value.0);
    ConcludeCounts(cfg, Observed(cfg, c, in_, r.value.0).1, in_, r.value.0, s.value.0, s.value.1);
  }

  /** With a hard limit H the turn hands at most H calls to the tools, a round that fails after they
      ran included, and with D deferred rounds it is
      over after at most H + D + 2 rounds: a longer script can never leave it running. */
  lemma {:induction false} TurnIsBounded(cfg: Config, script: seq<RoundInput>)
    requires cfg.hardLimit > 0
    ensures var exit, last := RunScript(cfg, START, script).0, RunScript(cfg, START, script).1;
            && last.total <= last.dispatched <= cfg.hardLimit
            && last.rounds <= cfg.hardLimit + last.deferred + 2
            && (exit.StillRunning? ==> |script| == last.rounds <= cfg.hardLimit + last.deferred + 1)
  {
    ScriptCounts(cfg, START, script);
  }

  // ---------- the bound of the stagnation budget ----------

  function Capped(stagnant: nat, limit: nat): nat {
    if stagnant < limit then stagnant else limit
  }

  /** Every progressing round pays for at most `maxStagnant` executed rounds, the stagnant calls since
      the last one for the others. */
  predicate Paced(cfg: Config, t: Turn)
    requires cfg.maxStagnant > 0
  {
    t.executed <= t.progressed * cfg.maxStagnant + Capped(t.stagnant, cfg.maxStagnant)
  }

  lemma {:induction false} ObservedPace(cfg: Config, t: Turn, in_: RoundInput, es: seq<Execution>)
    ensures var u := Observed(cfg, t, in_, es).1;
            && u.executed == t.executed
            && u.progressed == t.progressed + (if Progressed(es) then 1 else 0)
            && u.stagnant == if Progressed(es) then 0 else t.stagnant + |es|
  {
    hide ObserveBudget, ObserveGrounding;
    BudgetAndGroundingKeep(cfg, t, es);
  }

  lemma {:induction false} ConcludePace(cfg: Config, t: Turn, in_: RoundInput, es: seq<Execution>, assistant: Message, how: Fallback)
    ensures var n := Conclude(cfg, t, in_, es, assistant, how);
            && n.turn.progressed == t.progressed && n.turn.stagnant == t.stagnant
            && t.executed <= n.turn.executed <= t.executed + (if es == [] then 0 else 1)
  {
  }

  /** One more executed round keeps the pace when it ran below the limit. */
  lemma {:induction false} RoundPaces(limit: int, executed: nat, progressed: nat, stagnant: nat, calls: nat, advanced: bool)
    requires limit > 0 && executed <= progressed * limit + Capped(stagnant, limit)
    requires calls > 0 ==> stagnant < limit
    ensures var after := executed + (if calls > 0 then 1 else 0);
            && (advanced ==> after <= (progressed + 1) * limit)
            && (!advanced ==> after <= progressed * limit + Capped(stagnant + calls, limit))
  {
    assert (progressed + 1) * limit == progressed * limit + limit;
  }

  lemma {:induction false} FinishPaces(cfg: Config, t: Turn, in_: RoundInput, es: seq<Execution>, d: Dispatch)
    requires cfg.maxStagnant > 0 && Paced(cfg, t) && (es != [] ==> t.stagnant < cfg.maxStagnant)
    ensures Paced(cfg, Finish(cfg, t, in_, es, d).turn)
  {
    var s := Settle(d, in_, es);
    if s.Ok? {
      RoundPaces(cfg.maxStagnant, t.executed, t.progressed, t.stagnant, |es|, Progressed(es));
      ObservedPace(cfg, t, in_, es);
      var o := Observed(cfg, t, in_, es);
      if o.0.Ok? { ConcludePace(cfg, o.1, in_, es, s.value.0, s.value.1); }
    }
  }

  lemma {:induction false} StepPaces(cfg: Config, t: Turn, in_: RoundInput)
    requires cfg.maxStagnant > 0 && Inv(cfg, t) && Paced(cfg, t)
    ensures Paced(cfg, Step(cfg, t, in_).turn)
  {
    var e := Entered(t, in_);
    var r := Dispatched(cfg, e, in_);
    if r.Ok? {
      ExecutionsFitTheCeiling(cfg, e, in_);
      FinishPaces(cfg, Counted(e, r.value.0), in_, r.value.0, r.value.1);
    }
  }

  lemma {:induction false} ScriptPaces(cfg: Config, t: Turn, script: seq<RoundInput>)
    requires cfg.maxStagnant > 0 && Inv(cfg, t) && Paced(cfg, t)
    ensures Paced(cfg, RunScript(cfg, t, script).1)
    decreases |script|
  {
    hide Step, Paced, Inv;
    if script == [] {
    } else {
      StepPaces(cfg, t, script[0]);
      StepCounts(cfg, t, script[0]);
      var n := Step(cfg, t, script[0]);
      if n.Go? { ScriptPaces(cfg, n.turn, script[1..]); }
    }
  }

  /** With a stagnation budget S and no hard limit needed: P progressing and D deferred rounds end the
      turn after at most (P + 1) * S + D + 2 rounds. */
  lemma {:induction false} StagnantTurnIsBounded(cfg: Config, script: seq<RoundInput>)
    requires cfg.maxStagnant > 0
    ensures var run := RunScript(cfg, START, script);
            && run.1.rounds <= (run.1.progressed + 1) * cfg.maxStagnant + run.1.deferred + 2
            && (run.0.StillRunning? ==> |script| == run.1.rounds <= (run.1.progressed + 1) * cfg.maxStagnant + run.1.deferred + 1)
  {
    hide Step;
    ScriptCounts(cfg, START, script);
    ScriptPaces(cfg, START, script);
    var last := RunScript(cfg, START, script).1;
    assert (last.progressed + 1) * cfg.maxStagnant == last.progressed * cfg.maxStagnant + cfg.maxStagnant;
  }

  // ---------- tools stay off once a guard turned them off ----------

  /** After the safety budget ran out no tool runs again, whatever the rest of the turn brings. */
  lemma {:induction false} SafetyIsFinal(cfg: Config, t: Turn, script: seq<RoundInput>)
    requires Inv(cfg, t) && t.safety
    ensures var last := RunScript(cfg, t, script).1; last.dispatched == t.dispatched && last.executed == t.executed && last.missed == t.missed
    decreases |script|
  {
    hide Step;
    if script == [] {
    } else {
      SafetyStep(cfg, t, script[0]);
      StepCounts(cfg, t, script[0]);
      var n := Step(cfg, t, script[0]);
      if n.Go? { SafetyIsFinal(cfg, n.turn, script[1..]); }
    }
  }

  lemma {:induction false} SafetyStep(cfg: Config, t: Turn, in_: RoundInput)
    requires Inv(cfg, t) && t.safety
    ensures var n := Step(cfg, t, in_);
            && n.turn.dispatched == t.dispatched && n.turn.executed == t.executed && n.turn.missed == t.missed
            && (n.Go? ==> n.turn.safety && in_.completion.Deferred?)
  {
  }

  /** While no context arrives, a turn forced to synthesise runs no tool and goes on only when its
      completion is deferred. */
  lemma {:induction false} ForcedSynthesisEnds(cfg: Config, t: Turn, in_: RoundInput)
    requires Inv(cfg, t) && t.noProgress && !in_.arrived
    ensures var n := Step(cfg, t, in_);
            && n.turn.dispatched == t.dispatched && n.turn.executed == t.executed
            && (n.Go? ==> in_.completion.Deferred? && n.turn.noProgress == (in_.completion.messages == 0))
  {
  }

  /** A stalled round that ran tools in a turn owing no evidence is followed by the last one, unless
      context arrives or completion is deferred. */
  lemma {:induction false} StalledRoundIsFollowedByTheLast(cfg: Config, t: Turn, stalled: RoundInput, next: RoundInput)
    requires Inv(cfg, t) && Step(cfg, t, stalled).Go? && stalled.stalled
    requires Step(cfg, t, stalled).turn.executed > t.executed && !Pending(cfg, Step(cfg, t, stalled).turn)
    requires !next.arrived && !next.completion.Deferred?
    ensures Step(cfg, t, stalled).turn.noProgress
    ensures Step(cfg, Step(cfg, t, stalled).turn, next).Stop?
  {
    StalledSets(cfg, t, stalled);
    StepCounts(cfg, t, stalled);
    ForcedSynthesisEnds(cfg, Step(cfg, t, stalled).turn, next);
  }

  lemma {:induction false} StalledSets(cfg: Config, t: Turn, in_: RoundInput)
    requires Step(cfg, t, in_).Go? && in_.stalled && Step(cfg, t, in_).turn.executed > t.executed
    ensures Step(cfg, t, in_).turn.noProgress <==> !Pending(cfg, Step(cfg, t, in_).turn)
  {
  }

  // ---------- the configured limits ----------

  /** The ceiling combines two configured limits, and the turn respects each one that is set. */
  lemma {:induction false} BothConfiguredLimitsHold(maxToolCalls: nat, emergencyMax: nat, cfg: Config, script: seq<RoundInput>)
    requires cfg.hardLimit == HardLimit(maxToolCalls, emergencyMax)
    ensures var dispatched := RunScript(cfg, START, script).1.dispatched;
            && (maxToolCalls > 0 ==> dispatched <= maxToolCalls)
            && (emergencyMax > 0 ==> dispatched <= emergencyMax)
  {
    if cfg.hardLimit > 0 { TurnIsBounded(cfg, script); }
  }

  // ---------- grounding ----------

  /** The turn that completes without the evidence it required does so by one door: the model
      asked for more calls than the ceiling leaves while evidence was still pending. */
  lemma {:induction false} CompletesUngroundedIffOverflowing(cfg: Config, t: Turn, in_: RoundInput)
    requires Inv(cfg, t) && Step(cfg, t, in_).Stop? && Step(cfg, t, in_).exit.Completed?
    ensures Pending(cfg, Step(cfg, t, in_).turn) <==>
            Pending(cfg, t) && Overflows(DispatchFor(cfg, Entered(t, in_), in_.tools), in_.requested)
    ensures Pending(cfg, Step(cfg, t, in_).turn) ==> Step(cfg, t, in_).exit == Completed(BySafetyBudget)
  {
  }

  lemma {:induction false} CompletionIsGroundedUnlessBudgetFallback(cfg: Config, t: Turn, script: seq<RoundInput>)
    requires Inv(cfg, t)
    ensures var exit, last := RunScript(cfg, t, script).0, RunScript(cfg, t, script).1;
            exit.Completed? && exit.how != BySafetyBudget ==> !Pending(cfg, last)
    decreases |script|
  {
    if script == [] {
    } else {
      StepCounts(cfg, t, script[0]);
      var n := Step(cfg, t, script[0]);
      if n.Go? {
        CompletionIsGroundedUnlessBudgetFallback(cfg, n.turn, script[1..]);
      } else if n.exit.Completed? {
        CompletesUngroundedIffOverflowing(cfg, t, script[0]);
      }
    }
  }

  /** A turn that must gather evidence, a limit of one call, and a first response asking for two:
      the safety-budget fallback completes it although no evidence was ever gathered. */
  lemma {:induction false} UngroundedCompletionExample()
    ensures var calls := [ToolCall("a", "read", true), ToolCall("b", "read", true)];
            var first := RoundInput(false, Published, "", calls, _ => Outcome(false, true, true), false, Clear, NoFault);
            var (exit, last) := RunScript(Config(0, 1, true), START, [first]);
            exit == Completed(BySafetyBudget) && Pending(Config(0, 1, true), last)
  {
  }

  // ---------- the protocol of the returned messages ----------

  /** Every assistant message with tool calls is followed by exactly one reply per call, in order. */
  predicate ProtocolComplete(ms: seq<Message>)
    decreases |ms|
  {
    ms == [] ||
    (ms[0].Assistant? && |ms| > |ms[0].calls|
     && (forall i :: 0 <= i < |ms[0].calls| ==> ms[1 + i] == ToolReply(ms[0].calls[i].id))
     && ProtocolComplete(ms[1 + |ms[0].calls|..]))
  }

  lemma {:induction false} CompleteConcat(a: seq<Message>, b: seq<Message>)
    requires ProtocolComplete(a) && ProtocolComplete(b)
    ensures ProtocolComplete(a + b)
    decreases |a|
  {
    if a == [] {
      assert a + b == b;
    } else {
      var k := 1 + |a[0].calls|;
      CompleteConcat(a[k..], b);
      assert (a + b)[k..] == a[k..] + b;
      forall i | 0 <= i < |a[0].calls| ensures (a + b)[1 + i] == ToolReply(a[0].calls[i].id) {
        assert a[1 + i] == ToolReply(a[0].calls[i].id);
      }
    }
  }

  predicate TrimmedIDs(calls: seq<ToolCall>) {
    forall i :: 0 <= i < |calls| ==> Trim(calls[i].id) == calls[i].id
  }

  lemma {:induction false} OneGroup(a: Message, replies: seq<Message>)
    requires a.Assistant? && |replies| == |a.calls|
    ensures ProtocolComplete([a] + replies) <==> forall i :: 0 <= i < |replies| ==> replies[i] == ToolReply(a.calls[i].id)
  {
  }

  lemma {:induction false} RepliesCarryTrimmedIDs(calls: seq<ToolCall>, outcome: nat -> Outcome)
    ensures var replies := Replies(Executions(calls, outcome));
            (forall i :: 0 <= i < |calls| ==> replies[i] == ToolReply(calls[i].id)) <==> TrimmedIDs(calls)
  {
    var replies := Replies(Executions(calls, outcome));
    assert forall i :: 0 <= i < |calls| ==> replies[i].callID == Trim(calls[i].id);
  }

  /** The messages of an executed round answer its calls exactly when the model sent trimmed ids. */
  lemma {:induction false} RoundIsCompleteIffIDsTrimmed(text: string, calls: seq<ToolCall>, outcome: nat -> Outcome)
    ensures ProtocolComplete([Assistant(text, calls)] + Replies(Executions(calls, outcome))) <==> TrimmedIDs(calls)
  {
    OneGroup(Assistant(text, calls), Replies(Executions(calls, outcome)));
    RepliesCarryTrimmedIDs(calls, outcome);
  }

  lemma {:induction false} ConcludeKeepsProtocol(cfg: Config, t: Turn, in_: RoundInput, es: seq<Execution>, assistant: Message, how: Fallback)
    requires ProtocolComplete(t.messages) && ProtocolComplete([assistant] + Replies(es))
    ensures ProtocolComplete(Conclude(cfg, t, in_, es, assistant, how).turn.messages)
  {
    hide ProtocolComplete;
    CompleteConcat(t.messages, [assistant] + Replies(es));
    assert t.messages + ([assistant] + Replies(es)) == t.messages + [assistant] + Replies(es);
    assert es == [] ==> [assistant] + Replies(es) == [assistant];
  }

  lemma {:induction false} SettledRoundIsComplete(d: Dispatch, in_: RoundInput, es: seq<Execution>)
    requires TrimmedIDs(in_.requested) && Settle(d, in_, es).Ok?
    requires es != [] ==> d.Enabled? && es == Executions(in_.requested, in_.outcome)
    ensures ProtocolComplete([Settle(d, in_, es).value.0] + Replies(es))
  {
    if es == [] {
      OneGroup(Settle(d, in_, es).value.0, []);
    } else {
      RoundIsCompleteIffIDsTrimmed(in_.text, in_.requested, in_.outcome);
    }
  }

  lemma {:induction false} StepKeepsProtocol(cfg: Config, t: Turn, in_: RoundInput)
    requires ProtocolComplete(t.messages) && TrimmedIDs(in_.requested)
    ensures ProtocolComplete(Step(cfg, t, in_).turn.messages)
  {
    var e := Entered(t, in_);
    var r := Dispatched(cfg, e, in_);
    if r.Ok? {
      var (es, d) := r.value;
      ExecutionsFitTheCeiling(cfg, e, in_);
      var c := Counted(e, es);
      ObservedKeeps(cfg, c, in_, es);
      var s := Settle(d, in_, es);
      if s.Ok? {
        SettledRoundIsComplete(d, in_, es);
        ConcludeKeepsProtocol(cfg, Observed(cfg, c, in_, es).1, in_, es, s.value.0, s.value.1);
      }
    }
  }

  /** On every exit, success, failure or cut-off, the returned messages are protocol-complete. */
  lemma {:induction false} EveryExitIsProtocolComplete(cfg: Config, t: Turn, script: seq<RoundInput>)
    requires ProtocolComplete(t.messages) && forall i :: 0 <= i < |script| ==> TrimmedIDs(script[i].requested)
    ensures ProtocolComplete(RunScript(cfg, t, script).1.messages)
    decreases |script|
  {
    if script == [] {
    } else {
      StepKeepsProtocol(cfg, t, script[0]);
      var n := Step(cfg, t, script[0]);
      if n.Go? { EveryExitIsProtocolComplete(cfg, n.turn, script[1..]); }
    }
  }
}
