/** Concurrent resumption of one interrupted record (internal/feature/agent/resume.go).
    The two locked regions of each call, the admission between them, its rollback, pruning of
    children and process restarts are the atomic steps of a run. */
module Resume {
  import opened Lifecycle

  datatype Outcome = Handle(child: string) | Rejected(error: Error) | AdmissionFailed

  /** Where one Resume call is: it asked for the transition, admitted a child, or gave up. */
  datatype Call = Admitting | Binding(child: string) | RollingBack | Finished(outcome: Outcome)

  /** `retained` are the child records still known. The last four fields log what happened:
      entries into Interrupted, passes to Resuming, children admitted, children bound. */
  datatype State = State(
    record: Status, calls: map<nat, Call>, retained: set<string>,
    interruptions: nat, passes: nat, admitted: seq<string>, bound: seq<string>)

  datatype Action =
    | Begin(call: nat, at: nat, accepted: bool)
    | SpawnOk(call: nat, child: string)
    | SpawnFail(call: nat)
    | Rollback(call: nat, at: nat, accepted: bool)
    | Bind(call: nat, at: nat, accepted: bool)
    | Prune(child: string)
    | Restart(at: nat, accepted: bool)

  predicate Active(c: Call) {
    !c.Finished?
  }

  predicate Enabled(s: State, a: Action) {
    match a
    case Begin(c, _, _) => c !in s.calls
    case SpawnOk(c, child) => c in s.calls && s.calls[c] == Admitting && child != "" && child !in s.admitted
    case SpawnFail(c) => c in s.calls && s.calls[c] == Admitting
    case Rollback(c, _, _) => c in s.calls && s.calls[c] == RollingBack
    case Bind(c, _, _) => c in s.calls && s.calls[c].Binding?
    case Prune(child) => child in s.retained
    case Restart(_, _) => true
  }

  function BeginStep(s: State, c: nat, at: nat, accepted: bool): State {
    var r := s.record;
    if r.state == Resumed && r.resumedAs != "" then
      s.(calls := s.calls[c := Finished(if r.resumedAs in s.retained then Handle(r.resumedAs) else Rejected(NotFound))])
    else if r.state != Interrupted then s.(calls := s.calls[c := Finished(Rejected(NotResumable))])
    else if !accepted then s.(calls := s.calls[c := Finished(Rejected(StoreRefused))])
    else match ApplyEvent(r, NextEvent(r, ResumeRequested, at, "resume requested"))
      case Err(x) => s.(calls := s.calls[c := Finished(Rejected(x))])
      case Ok(moved) => s.(record := moved, calls := s.calls[c := Admitting], passes := s.passes + 1)
  }

  function RollbackStep(s: State, c: nat, at: nat, accepted: bool): State {
    var done := s.(calls := s.calls[c := Finished(AdmissionFailed)]);
    if s.record.state != Resuming || !accepted then done
    else match ApplyEvent(s.record, NextEvent(s.record, AgentInterrupted, at, "resume admission failed"))
      case Err(_) => done
      case Ok(moved) => done.(record := moved, interruptions := s.interruptions + 1)
  }

  function BindStep(s: State, c: nat, child: string, at: nat, accepted: bool): State {
    var e := NextEvent(s.record, AgentResumed, at, "resumed as " + child).(resumedAs := child);
    if !accepted then s.(calls := s.calls[c := Finished(Rejected(StoreRefused))])
    else match ApplyEvent(s.record, e)
      case Err(x) => s.(calls := s.calls[c := Finished(Rejected(x))])
      case Ok(moved) => s.(record := moved, calls := s.calls[c := Finished(Handle(child))], bound := s.bound + [child])
  }

  /** A restart forgets the calls; recovery interrupts a live record if its append is accepted. */
  function RestartStep(s: State, at: nat, accepted: bool): State {
    var fresh_start := s.(calls := map[]);
    if Terminal(s.record.state) || !accepted then fresh_start
    else match ApplyEvent(s.record, NextEvent(s.record, AgentInterrupted, at, INTERRUPT_REASON))
      case Err(_) => fresh_start
      case Ok(moved) => fresh_start.(record := moved, interruptions := s.interruptions + 1)
  }

  function Apply(s: State, a: Action): State
    requires Enabled(s, a)
  {
    match a
    case Begin(c, at, accepted) => BeginStep(s, c, at, accepted)
    case SpawnOk(c, child) =>
      s.(calls := s.calls[c := Binding(child)], retained := s.retained + {child}, admitted := s.admitted + [child])
    case SpawnFail(c) => s.(calls := s.calls[c := RollingBack])
    case Rollback(c, at, accepted) => RollbackStep(s, c, at, accepted)
    case Bind(c, at, accepted) => BindStep(s, c, s.calls[c].child, at, accepted)
    case Prune(child) => s.(retained := s.retained - {child})
    case Restart(at, accepted) => RestartStep(s, at, accepted)
  }

  /** A record freshly interrupted, with nobody resuming it. */
  predicate Start(s: State) {
    && s.record.state == Interrupted && s.record.id != "" && s.record.resumedAs == ""
    && s.calls == map[] && s.interruptions == 1 && s.passes == 0 && s.admitted == [] && s.bound == []
  }

  predicate CallsExclude(s: State) {
    && (forall c <- s.calls :: Active(s.calls[c]) ==> s.record.state == Resuming)
    && (forall c <- s.calls, d <- s.calls :: Active(s.calls[c]) && Active(s.calls[d]) ==> c == d)
  }

  predicate HandlesAgree(s: State) {
    forall c <- s.calls :: s.calls[c].Finished? && s.calls[c].outcome.Handle? ==>
      s.bound == [s.calls[c].outcome.child]
  }

  predicate Inv(s: State) {
    && s.record.id != ""
    && (s.record.state == Interrupted || s.record.state == Resuming || s.record.state == Resumed)
    && CallsExclude(s)
    && HandlesAgree(s)
    // one pass per interruption, at most one child admitted per pass, at most one bound at all
    && s.interruptions == s.passes + (if s.record.state == Interrupted then 1 else 0)
    && |s.admitted| + (if exists c <- s.calls :: s.calls[c] == Admitting then 1 else 0) <= s.passes
    && (forall c <- s.calls :: s.calls[c].Binding? ==> s.calls[c].child != "" && s.calls[c].child in s.admitted)
    && (if s.record.state == Resumed then s.bound == [s.record.resumedAs] && s.record.resumedAs != "" && s.record.resumedAs in s.admitted
        else s.bound == [] && s.record.resumedAs == "")
  }

  /** An interrupted record accepts the resume request. */
  lemma {:induction false} InterruptedMoves(r: Status, at: nat)
    requires r.state == Interrupted && r.id != ""
    ensures ApplyEvent(r, NextEvent(r, ResumeRequested, at, "resume requested")) ==
            Ok(r.(state := Resuming, reason := "resume requested", version := r.version + 1))
  {
  }

  lemma {:induction false} AnswerKeepsInv(s: State, c: nat, outcome: Outcome)
    requires Inv(s) && c !in s.calls && (outcome.Handle? ==> s.bound == [outcome.child])
    ensures Inv(s.(calls := s.calls[c := Finished(outcome)]))
  {
  }

  lemma {:induction false} PassKeepsInv(s: State, c: nat, moved: Status)
    requires Inv(s) && c !in s.calls && s.record.state == Interrupted
    requires moved.state == Resuming && moved.id != "" && moved.resumedAs == ""
    ensures Inv(s.(record := moved, calls := s.calls[c := Admitting], passes := s.passes + 1))
  {
  }

  lemma {:induction false} BeginKeepsInv(s: State, c: nat, at: nat, accepted: bool)
    requires Inv(s) && c !in s.calls
    ensures Inv(BeginStep(s, c, at, accepted))
  {
    if s.record.state == Interrupted {
      InterruptedMoves(s.record, at);
      if accepted {
        PassKeepsInv(s, c, s.record.(state := Resuming, reason := "resume requested", version := s.record.version + 1));
      } else {
        AnswerKeepsInv(s, c, Rejected(StoreRefused));
      }
    } else if s.record.state == Resumed {
      AnswerKeepsInv(s, c, if s.record.resumedAs in s.retained then Handle(s.record.resumedAs) else Rejected(NotFound));
    } else {
      AnswerKeepsInv(s, c, Rejected(NotResumable));
    }
  }

  lemma {:induction false} OthersAreFinished(s: State, c: nat)
    requires CallsExclude(s) && c in s.calls && Active(s.calls[c])
    ensures forall d <- s.calls :: d != c ==> s.calls[d].Finished?
  {
  }

  lemma {:induction false} SpawnKeepsInv(s: State, a: Action)
    requires Inv(s) && (a.SpawnOk? || a.SpawnFail?) && Enabled(s, a)
    ensures Inv(Apply(s, a))
  {
  }

  /** The edges a resuming record takes: back to Interrupted, or on to Resumed under a child. */
  lemma {:induction false} ResumingMoves(r: Status, at: nat, child: string)
    requires r.state == Resuming && r.id != "" && r.resumedAs == ""
    ensures ApplyEvent(r, NextEvent(r, AgentInterrupted, at, "resume admission failed")) ==
            Ok(r.(state := Interrupted, reason := "resume admission failed", finishedAt := at, version := r.version + 1))
    ensures ApplyEvent(r, NextEvent(r, AgentResumed, at, "resumed as " + child).(resumedAs := child)) ==
            Ok(r.(state := Resumed, reason := "resumed as " + child, finishedAt := at, version := r.version + 1, resumedAs := child))
  {
  }

  lemma {:induction false} RollbackKeepsInv(s: State, c: nat, at: nat, accepted: bool)
    requires Inv(s) && c in s.calls && s.calls[c] == RollingBack
    ensures Inv(RollbackStep(s, c, at, accepted))
  {
    var t := RollbackStep(s, c, at, accepted);
    OthersAreFinished(s, c);
    ResumingMoves(s.record, at, "");
    assert forall d <- t.calls :: t.calls[d].Finished? && (d != c ==> t.calls[d] == s.calls[d]);
  }

  lemma {:induction false} BindKeepsInv(s: State, c: nat, at: nat, accepted: bool)
    requires Inv(s) && c in s.calls && s.calls[c].Binding?
    ensures Inv(BindStep(s, c, s.calls[c].child, at, accepted))
  {
    var t := BindStep(s, c, s.calls[c].child, at, accepted);
    OthersAreFinished(s, c);
    ResumingMoves(s.record, at, s.calls[c].child);
    assert forall d <- t.calls :: t.calls[d].Finished? && (d != c ==> t.calls[d] == s.calls[d]);
  }

  lemma {:induction false} StepKeepsInv(s: State, a: Action)
    requires Inv(s) && Enabled(s, a)
    ensures Inv(Apply(s, a))
  {
    match a {
      case Begin(c, at, accepted) => BeginKeepsInv(s, c, at, accepted);
      case SpawnOk(_, _) => SpawnKeepsInv(s, a);
      case SpawnFail(_) => SpawnKeepsInv(s, a);
      case Rollback(c, at, accepted) => RollbackKeepsInv(s, c, at, accepted);
      case Bind(c, at, accepted) => BindKeepsInv(s, c, at, accepted);
      case Prune(_) =>
      case Restart(_, _) =>
    }
  }

  ghost predicate IsRun(run: seq<State>, actions: seq<Action>) {
    && |run| == |actions| + 1 && Start(run[0])
    && forall i :: 0 <= i < |actions| ==> Enabled(run[i], actions[i]) && run[i + 1] == Apply(run[i], actions[i])
  }

  lemma {:induction false} RunKeepsInv(run: seq<State>, actions: seq<Action>, i: nat)
    requires IsRun(run, actions) && i < |run|
    ensures Inv(run[i])
  {
    if i == 0 {
    } else {
      RunKeepsInv(run, actions, i - 1);
      StepKeepsInv(run[i - 1], actions[i - 1]);
    }
  }

  /** In every interleaving: two calls in flight are the same call, each interruption lets at
      most one call through, and each pass admits at most one child. */
  lemma {:induction false} OnePassPerInterruption(run: seq<State>, actions: seq<Action>, i: nat)
    requires IsRun(run, actions) && i < |run|
    ensures forall c <- run[i].calls, d <- run[i].calls :: Active(run[i].calls[c]) && Active(run[i].calls[d]) ==> c == d
    ensures |run[i].admitted| <= run[i].passes <= run[i].interruptions <= run[i].passes + 1
  {
    RunKeepsInv(run, actions, i);
  }

  lemma {:induction false} BoundOnlyGrows(run: seq<State>, actions: seq<Action>, i: nat, j: nat)
    requires IsRun(run, actions) && i <= j < |run|
    ensures run[i].bound <= run[j].bound
  {
    if i == j {
    } else {
      BoundOnlyGrows(run, actions, i, j - 1);
      assert run[j - 1].bound <= run[j].bound;
    }
  }

  /** Over the whole run, restarts included, one record is bound to at most one child: any two
      handles ever returned, by any two calls at any two moments, name the same child. */
  lemma {:induction false} AllHandlesAgree(run: seq<State>, actions: seq<Action>, i: nat, j: nat, c: nat, d: nat)
    requires IsRun(run, actions) && i <= j < |run|
    requires c in run[i].calls && run[i].calls[c].Finished? && run[i].calls[c].outcome.Handle?
    requires d in run[j].calls && run[j].calls[d].Finished? && run[j].calls[d].outcome.Handle?
    ensures run[i].calls[c].outcome == run[j].calls[d].outcome
    ensures run[j].record.state == Resumed && run[j].record.resumedAs == run[i].calls[c].outcome.child
  {
    RunKeepsInv(run, actions, i);
    RunKeepsInv(run, actions, j);
    BoundOnlyGrows(run, actions, i, j);
    assert run[i].bound[0] == run[j].bound[0];
  }

  /** Once a call got its handle, a call at any later moment of the run, restarts in between included,
      gets the same one as long as the child is retained, and a not-found answer otherwise. */
  lemma {:induction false} RetryReturnsSameHandle(run: seq<State>, actions: seq<Action>, i: nat, j: nat, c: nat, retry: nat, at: nat, accepted: bool)
    requires IsRun(run, actions) && i <= j < |run| && retry !in run[j].calls
    requires c in run[i].calls && run[i].calls[c].Finished? && run[i].calls[c].outcome.Handle?
    ensures var child := run[i].calls[c].outcome.child;
            var next := BeginStep(run[j], retry, at, accepted);
            && next.record == run[j].record
            && next.calls[retry] == Finished(if child in run[j].retained then Handle(child) else Rejected(NotFound))
  {
    RunKeepsInv(run, actions, i);
    RunKeepsInv(run, actions, j);
    BoundOnlyGrows(run, actions, i, j);
    assert run[i].bound[0] == run[j].bound[0];
  }

  /** When admission fails the record can be resumed again exactly when the rollback append is
      accepted; otherwise it stays Resuming with no call in flight and every retry is refused. */
  lemma {:induction false} FailedAdmissionIsResumableIffRolledBack(run: seq<State>, actions: seq<Action>, i: nat, c: nat, at: nat, rolled: bool, retry: nat)
    requires IsRun(run, actions) && i < |run|
    requires c in run[i].calls && run[i].calls[c] == RollingBack && retry !in run[i].calls
    ensures var after := Apply(run[i], Rollback(c, at, rolled));
            && (rolled <==> after.record.state == Interrupted)
            && (rolled <==> BeginStep(after, retry, at, true).calls[retry] == Admitting)
            && (!rolled ==> (forall d <- after.calls :: !Active(after.calls[d]))
                            && BeginStep(after, retry, at, true).calls[retry] == Finished(Rejected(NotResumable)))
  {
    RunKeepsInv(run, actions, i);
    AfterRollback(run[i], c, at, rolled, retry);
  }

  lemma {:induction false} AfterRollback(s: State, c: nat, at: nat, rolled: bool, retry: nat)
    requires Inv(s) && c in s.calls && s.calls[c] == RollingBack && retry !in s.calls
    ensures var after := RollbackStep(s, c, at, rolled);
            && (rolled <==> after.record.state == Interrupted)
            && (rolled <==> BeginStep(after, retry, at, true).calls[retry] == Admitting)
            && (!rolled ==> (forall d <- after.calls :: !Active(after.calls[d]))
                            && BeginStep(after, retry, at, true).calls[retry] == Finished(Rejected(NotResumable)))
  {
    OthersAreFinished(s, c);
    ResumingMoves(s.record, at, "");
    var after := RollbackStep(s, c, at, rolled);
    if rolled { InterruptedMoves(after.record, at); }
    assert forall d <- after.calls :: d in s.calls && (d != c ==> after.calls[d] == s.calls[d]);
  }

  // ---------- what a caller is told ----------

  /** The first answer of a call: it may go on, or the record is resumed already, or is not interrupted, or
      the store refused; nobody else's call is touched. */
  lemma {:induction false} BeginAnswers(s: State, c: nat, at: nat, accepted: bool)
    requires Inv(s) && c !in s.calls
    ensures var t := BeginStep(s, c, at, accepted);
            && c in t.calls && t.calls == s.calls[c := t.calls[c]]
            && t.retained == s.retained && t.admitted == s.admitted && t.bound == s.bound && t.interruptions == s.interruptions
            && (s.record.state == Interrupted && accepted ==>
                  && t.calls[c] == Admitting && t.passes == s.passes + 1
                  && t.record == s.record.(state := Resuming, reason := "resume requested", version := s.record.version + 1))
            && (s.record.state == Interrupted && !accepted ==> t.calls[c] == Finished(Rejected(StoreRefused)) && t.record == s.record)
            && (s.record.state == Resuming ==> t.calls[c] == Finished(Rejected(NotResumable)) && t.record == s.record)
            && (s.record.state == Resumed && s.record.resumedAs in s.retained ==> t.calls[c] == Finished(Handle(s.record.resumedAs)) && t.record == s.record)
            && (s.record.state == Resumed && s.record.resumedAs !in s.retained ==> t.calls[c] == Finished(Rejected(NotFound)) && t.record == s.record)
  {
    if s.record.state == Interrupted { InterruptedMoves(s.record, at); }
  }

  /** A resumption nothing gets in the way of ends with the child it admitted: the record is resumed as that
      child, and the caller has its handle. */
  lemma {:induction false} UndisturbedResumeSucceeds(s: State, c: nat, child: string, at: nat)
    requires Inv(s) && c !in s.calls && s.record.state == Interrupted && child != "" && child !in s.admitted
    ensures Enabled(s, Begin(c, at, true))
    ensures var begun := Apply(s, Begin(c, at, true));
            && Enabled(begun, SpawnOk(c, child))
            && var admitted := Apply(begun, SpawnOk(c, child));
            && Enabled(admitted, Bind(c, at, true))
            && var bound := Apply(admitted, Bind(c, at, true));
            && c in bound.calls && bound.calls[c] == Finished(Handle(child))
            && bound.record == s.record.(state := Resumed, reason := "resumed as " + child, resumedAs := child,
                                         finishedAt := at, version := s.record.version + 2)
            && child in bound.retained
            && bound.admitted == s.admitted + [child] && bound.bound == [child]
  {
    hide ApplyEvent, NextEvent, HandlesAgree;
    InterruptedMoves(s.record, at);
    BeginAnswers(s, c, at, true);
    StepKeepsInv(s, Begin(c, at, true));
    var begun := Apply(s, Begin(c, at, true));
    ResumingMoves(begun.record, at, child);
  }

  /** A restart forgets every call and leaves the record interrupted or resumed; only a refused append keeps
      it resuming. */
  lemma {:induction false} RestartMeans(s: State, at: nat, accepted: bool)
    requires Inv(s)
    ensures var t := Apply(s, Restart(at, accepted));
            && t.calls == map[] && t.retained == s.retained && t.admitted == s.admitted && t.bound == s.bound && t.passes == s.passes
            && (s.record.state != Resuming || !accepted ==> t.record == s.record)
            && (s.record.state == Resuming && accepted ==>
                  && t.interruptions == s.interruptions + 1
                  && t.record == s.record.(state := Interrupted, reason := "interrupted by previous process exit",
                                           finishedAt := at, version := s.record.version + 1))
  {
  }

  /** A failed admission is told to its caller, and the record is interrupted again unless the store refuses. */
  lemma {:induction false} FailedAdmissionIsTold(s: State, c: nat, at: nat, accepted: bool)
    requires Inv(s) && c in s.calls && s.calls[c] == Admitting
    ensures Enabled(s, SpawnFail(c))
    ensures var failed := Apply(s, SpawnFail(c));
            && failed.record == s.record && Enabled(failed, Rollback(c, at, accepted))
            && var told := Apply(failed, Rollback(c, at, accepted));
            && told.calls == s.calls[c := Finished(AdmissionFailed)]
            && told.retained == s.retained && told.admitted == s.admitted && told.bound == s.bound
            && told.record == if !accepted then s.record
                              else s.record.(state := Interrupted, reason := "resume admission failed", finishedAt := at, version := s.record.version + 1)
  {
    hide ApplyEvent, NextEvent, HandlesAgree;
    assert Active(s.calls[c]);
    ResumingMoves(s.record, at, "");
  }

  /** A refused binding is told to its caller too; the record stays resuming. */
  lemma {:induction false} RefusedBindingIsTold(s: State, c: nat, at: nat)
    requires Inv(s) && c in s.calls && s.calls[c].Binding?
    ensures Enabled(s, Bind(c, at, false))
    ensures var t := Apply(s, Bind(c, at, false));
            t.calls == s.calls[c := Finished(Rejected(StoreRefused))] && t.record == s.record && t.record.state == Resuming && t.bound == s.bound
  {
  }

  /** A child is retained from its admission until it is pruned. */
  lemma {:induction false} RetainedUntilPruned(s: State, a: Action, child: string)
    requires Enabled(s, a)
    ensures child in Apply(s, a).retained <==> (a.SpawnOk? && a.child == child) || (child in s.retained && !(a.Prune? && a.child == child))
    ensures a.Prune? ==> a.child in s.retained && Apply(s, a).calls == s.calls && Apply(s, a).record == s.record
    ensures a.SpawnOk? ==> |a.child| > 0 && a.child !in s.admitted && a.call in s.calls && s.calls[a.call].Admitting?
  {
  }
}
