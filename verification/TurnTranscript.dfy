/** What the messages of a turn say (internal/engine/turn: loop, round_result), told by the script's
    rounds: which of them left messages, and which messages. */
module TurnTranscript {
  import opened Text
  import opened TurnLoop
  import opened TurnLoopProperties

  // ---------- one round ----------

  function ReplyTo(calls: seq<ToolCall>): (ms: seq<Message>)
    ensures |ms| == |calls| && forall i :: 0 <= i < |ms| ==> ms[i] == ToolReply(Trim(calls[i].id))
  {
    if calls == [] then [] else [ToolReply(Trim(calls[0].id))] + ReplyTo(calls[1..])
  }

  /** What a round the turn goes on from leaves: its calls and their replies when tools ran, its text when
      it missed required evidence, nothing when its completion was deferred. */
  function RoundMessages(before: Turn, after: Turn, in_: RoundInput): seq<Message> {
    if after.dispatched > before.dispatched then [Assistant(in_.text, in_.requested)] + ReplyTo(in_.requested)
    else if after.missed > before.missed then [Assistant(in_.text, [])]
    else []
  }

  /** The text a completed turn ends with: the model's, and the notice when a guard stopped its calls. */
  function FinalText(text: string, how: Fallback): string {
    var separator := if Trim(text) == "" then "" else "\n\n";
    match how
    case ByModel => text
    case BySafetyBudget => text + separator + SAFETY_FALLBACK
    case ByNoProgress => text + separator + NO_PROGRESS_FALLBACK
  }

  /** What the round that ends the turn leaves. */
  ghost predicate EndMessages(exit: Exit, in_: RoundInput, ms: seq<Message>) {
    match exit
    case Completed(how) => ms == [Assistant(FinalText(in_.text, how), [])]
    case Failed(reason) =>
      if reason == GroundingNotObserved then ms == [Assistant(in_.text, [])]
      else if reason == Faulted(CompletionSinkFault) then exists how :: ms == [Assistant(FinalText(in_.text, how), [])]
      else ms == []
    case StillRunning => false
  }

  lemma {:induction false} RepliesAre(calls: seq<ToolCall>, outcome: nat -> Outcome)
    ensures Replies(Executions(calls, outcome)) == ReplyTo(calls)
  {
  }

  lemma {:induction false} AppendNotice(text: string, notice: string)
    ensures WithFallback(text, notice) == Assistant(text + (if Trim(text) == "" then "" else "\n\n") + notice, [])
  {
    var separator := if Trim(text) == "" then "" else "\n\n";
    assert text + separator + notice == text + (separator + notice);
    assert "" + notice == notice;
  }

  lemma {:induction false} FallbackText(text: string)
    ensures WithFallback(text, SAFETY_FALLBACK) == Assistant(FinalText(text, BySafetyBudget), [])
    ensures WithFallback(text, NO_PROGRESS_FALLBACK) == Assistant(FinalText(text, ByNoProgress), [])
  {
    AppendNotice(text, SAFETY_FALLBACK);
    AppendNotice(text, NO_PROGRESS_FALLBACK);
  }

  /** The message a settled round has for the transcript. */
  lemma {:induction false} SettledSays(d: Dispatch, in_: RoundInput, es: seq<Execution>)
    requires Settle(d, in_, es).Ok?
    requires es != [] ==> d.Enabled? && es == Executions(in_.requested, in_.outcome)
    ensures var assistant, how := Settle(d, in_, es).value.0, Settle(d, in_, es).value.1;
            && (es == [] ==> assistant == Assistant(FinalText(in_.text, how), []))
            && (es != [] ==> assistant == Assistant(in_.text, in_.requested) && Replies(es) == ReplyTo(in_.requested))
            && (how == ByModel <==> in_.requested == [] || es != [])
            && (how == ByNoProgress <==> in_.requested != [] && d == OffNoProgress)
            && (how == BySafetyBudget <==> in_.requested != [] && d == OffSafetyBudget)
  {
    FallbackText(in_.text);
    if es != [] { RepliesAre(in_.requested, in_.outcome); }
  }

  lemma {:induction false} ConcludeSays(cfg: Config, t: Turn, in_: RoundInput, es: seq<Execution>, assistant: Message, how: Fallback)
    requires es == [] ==> assistant == Assistant(FinalText(in_.text, how), [])
    requires es != [] ==> assistant == Assistant(in_.text, in_.requested) && Replies(es) == ReplyTo(in_.requested)
    ensures var n := Conclude(cfg, t, in_, es, assistant, how);
            && n.turn.dispatched == t.dispatched
            && (n.Go? && es != [] ==> n.turn.messages == t.messages + ([Assistant(in_.text, in_.requested)] + ReplyTo(in_.requested)))
            && (n.Go? && es == [] ==> n.turn.messages == t.messages + (if n.turn.missed > t.missed then [Assistant(in_.text, [])] else []))
            && (n.Stop? ==> exists ms :: n.turn.messages == t.messages + ms && EndMessages(n.exit, in_, ms))
            && (n.Stop? && n.exit.Completed? ==> n.exit.how == how)
  {
    hide ReplyTo, Replies;
    var n := Conclude(cfg, t, in_, es, assistant, how);
    assert t.messages + [] == t.messages;
    if es != [] {
      assert t.messages + [assistant] + Replies(es) == t.messages + ([assistant] + Replies(es));
    }
    if n.Stop? {
      if n.turn.messages == t.messages + [assistant] { assert EndMessages(n.exit, in_, [assistant]); }
      else { assert EndMessages(n.exit, in_, []); }
    }
  }

  lemma {:induction false} ObservedSays(cfg: Config, t: Turn, in_: RoundInput, es: seq<Execution>)
    ensures var u := Observed(cfg, t, in_, es).1; u.messages == t.messages && u.dispatched == t.dispatched && u.missed == t.missed
  {
    ObservedKeeps(cfg, t, in_, es);
  }

  lemma {:induction false} FinishSays(cfg: Config, t: Turn, in_: RoundInput, es: seq<Execution>, d: Dispatch)
    requires es != [] ==> d.Enabled? && es == Executions(in_.requested, in_.outcome)
    ensures var n := Finish(cfg, t, in_, es, d);
            && n.turn.dispatched == t.dispatched
            && (n.Go? && es != [] ==> n.turn.messages == t.messages + ([Assistant(in_.text, in_.requested)] + ReplyTo(in_.requested)))
            && (n.Go? && es == [] ==> n.turn.messages == t.messages + (if n.turn.missed > t.missed then [Assistant(in_.text, [])] else []))
            && (n.Stop? ==> exists ms :: n.turn.messages == t.messages + ms && EndMessages(n.exit, in_, ms))
            && (n.Stop? && n.exit.Completed? ==>
                  && (n.exit.how == ByModel <==> in_.requested == [] || es != [])
                  && (n.exit.how == ByNoProgress <==> in_.requested != [] && d == OffNoProgress)
                  && (n.exit.how == BySafetyBudget <==> in_.requested != [] && d == OffSafetyBudget))
  {
    hide Settle, Observed, Conclude;
    var s := Settle(d, in_, es);
    var n := Finish(cfg, t, in_, es, d);
    assert t.messages + [] == t.messages;
    if s.Ok? {
      SettledSays(d, in_, es);
      ObservedSays(cfg, t, in_, es);
      var o := Observed(cfg, t, in_, es);
      if o.0.Ok? {
        ConcludeSays(cfg, o.1, in_, es, s.value.0, s.value.1);
      } else {
        ObservedFails(cfg, t, in_, es);
        assert EndMessages(n.exit, in_, []);
      }
    } else {
      SettleFails(d, in_, es);
      assert EndMessages(n.exit, in_, []);
    }
  }

  lemma {:induction false} SettleFails(d: Dispatch, in_: RoundInput, es: seq<Execution>)
    requires Settle(d, in_, es).Err?
    ensures Settle(d, in_, es).error != GroundingNotObserved && Settle(d, in_, es).error != Faulted(CompletionSinkFault)
  {
  }

  lemma {:induction false} ObservedFails(cfg: Config, t: Turn, in_: RoundInput, es: seq<Execution>)
    requires Observed(cfg, t, in_, es).0.Err?
    ensures Observed(cfg, t, in_, es).0.error == GroundingBudgetExhausted || Observed(cfg, t, in_, es).0.error == Faulted(GuardFault)
  {
  }

  /** What one round does to the transcript. */
  lemma {:induction false} StepSays(cfg: Config, t: Turn, in_: RoundInput)
    ensures var n := Step(cfg, t, in_);
            && (n.Go? ==> n.turn.messages == t.messages + RoundMessages(t, n.turn, in_))
            && (n.Stop? ==> exists ms :: n.turn.messages == t.messages + ms && EndMessages(n.exit, in_, ms))
  {
    var e := Entered(t, in_);
    var r := Dispatched(cfg, e, in_);
    var n := Step(cfg, t, in_);
    assert t.messages + [] == t.messages;
    if r.Ok? {
      var es, d := r.value.0, r.value.1;
      ExecutionsFitTheCeiling(cfg, e, in_);
      FinishSays(cfg, Counted(e, es), in_, es, d);
      if FailsLate(in_, es) { assert EndMessages(n.exit, in_, []); }
    } else {
      assert EndMessages(n.exit, in_, []);
    }
  }

  // ---------- a turn ----------

  /** The messages of the rounds a turn went on from, in order. */
  function Transcript(cfg: Config, t: Turn, script: seq<RoundInput>): seq<Message>
    decreases |script|
  {
    if script == [] then []
    else match Step(cfg, t, script[0])
      case Go(next) => RoundMessages(t, next, script[0]) + Transcript(cfg, next, script[1..])
      case Stop(_, _) => []
  }

  /** How many rounds of the script a turn takes. */
  function Consumed(cfg: Config, t: Turn, script: seq<RoundInput>): (n: nat)
    ensures n <= |script|
    ensures RunScript(cfg, t, script).0 != StillRunning ==> n > 0
    decreases |script|
  {
    if script == [] then 0
    else match Step(cfg, t, script[0])
      case Go(next) => 1 + Consumed(cfg, next, script[1..])
      case Stop(_, _) => 1
  }

  /** Under every script the returned messages are those of its rounds, in round order, nothing missing
      and nothing added, and then what the last round leaves: for a completed turn its text, followed by
      the notice of the guard that stopped its calls, if one did. */
  lemma {:induction false} MessagesTellTheRounds(cfg: Config, t: Turn, script: seq<RoundInput>) returns (tail: seq<Message>)
    ensures var exit, last := RunScript(cfg, t, script).0, RunScript(cfg, t, script).1;
            && last.messages == t.messages + Transcript(cfg, t, script) + tail
            && (exit == StillRunning ==> tail == [] && Consumed(cfg, t, script) == |script|)
            && (exit != StillRunning ==> EndMessages(exit, script[Consumed(cfg, t, script) - 1], tail))
    decreases |script|
  {
    hide Step, RoundMessages, EndMessages;
    tail := [];
    if script == [] {
      assert t.messages + [] + [] == t.messages;
    } else {
      StepSays(cfg, t, script[0]);
      match Step(cfg, t, script[0]) {
        case Go(next) =>
          tail := MessagesTellTheRounds(cfg, next, script[1..]);
          var first, rest := RoundMessages(t, next, script[0]), Transcript(cfg, next, script[1..]);
          assert t.messages + first + rest + tail == t.messages + (first + rest) + tail;
        case Stop(exit, last) =>
          tail :| last.messages == t.messages + tail && EndMessages(exit, script[0], tail);
          StopsForReal(cfg, t, script[0]);
          assert t.messages + [] + tail == t.messages + tail;
      }
    }
  }

  lemma {:induction false} StopsForReal(cfg: Config, t: Turn, in_: RoundInput)
    requires Step(cfg, t, in_).Stop?
    ensures Step(cfg, t, in_).exit != StillRunning
  {
    StepSays(cfg, t, in_);
  }

  /** A completed turn ends with one assistant message that calls nothing and says the final text. */
  lemma {:induction false} CompletedTurnAnswers(cfg: Config, script: seq<RoundInput>)
    requires RunScript(cfg, START, script).0.Completed?
    ensures var ms := RunScript(cfg, START, script).1.messages;
            var how := RunScript(cfg, START, script).0.how;
            && ms == Transcript(cfg, START, script) + [Assistant(FinalText(script[Consumed(cfg, START, script) - 1].text, how), [])]
  {
    var tail := MessagesTellTheRounds(cfg, START, script);
    assert [] + Transcript(cfg, START, script) == Transcript(cfg, START, script);
  }

  /** The guard's notice is added exactly when the model asked for calls the guard had turned off. */
  lemma {:induction false} NoticeIffCallsWereStopped(cfg: Config, t: Turn, in_: RoundInput)
    requires Step(cfg, t, in_).Stop? && Step(cfg, t, in_).exit.Completed?
    ensures var how := Step(cfg, t, in_).exit.how;
            && (how == ByModel <==> in_.requested == [])
            && (how == ByNoProgress <==> in_.requested != [] && t.noProgress && !in_.arrived)
  {
    var e := Entered(t, in_);
    var r := Dispatched(cfg, e, in_);
    ExecutionsFitTheCeiling(cfg, e, in_);
    FinishSays(cfg, Counted(e, r.value.0), in_, r.value.0, r.value.1);
    NothingRanAtTheEnd(cfg, t, in_);
  }

  lemma {:induction false} NothingRanAtTheEnd(cfg: Config, t: Turn, in_: RoundInput)
    requires Step(cfg, t, in_).Stop? && Step(cfg, t, in_).exit.Completed?
    ensures Dispatched(cfg, Entered(t, in_), in_).Ok? && Dispatched(cfg, Entered(t, in_), in_).value.0 == []
  {
  }
}
