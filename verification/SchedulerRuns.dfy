/** What the scheduling of children means over whole runs (internal/feature/agent: dependencies,
    lifecycle, scheduler), told by the actions taken and the phases reached, not by the steps. */
module SchedulerRuns {
  import opened WorkspaceScheduler

  ghost predicate FromStart(run: seq<State>, actions: seq<Action>) {
    IsRun(run, actions) && run[0] == Initial(run[0].capacity) && run[0].capacity >= 1
  }

  lemma {:induction false} PrefixFromStart(run: seq<State>, actions: seq<Action>, n: nat)
    requires FromStart(run, actions) && n < |run|
    ensures FromStart(run[..n + 1], actions[..n])
  {
  }

  // ---------- children over time ----------

  predicate StepsChild(a: Action, i: nat) {
    (a.Advance? || a.GiveUp? || a.Finish?) && a.child == i
  }

  /** A step changes the phase of the child it names alone; requests never change. */
  lemma {:induction false} OthersStay(s: State, a: Action, i: nat)
    requires Enabled(s, a) && i < |s.children|
    ensures var t := Apply(s, a);
            && |s.children| <= |t.children|
            && t.children[i].exclusive == s.children[i].exclusive && t.children[i].deps == s.children[i].deps
            && (!StepsChild(a, i) ==> t.children[i].phase == s.children[i].phase)
  {
  }

  lemma {:induction false} DoneStays(s: State, a: Action, i: nat)
    requires Enabled(s, a) && i < |s.children| && s.children[i].phase.Done?
    ensures i < |Apply(s, a).children| && Apply(s, a).children[i].phase == s.children[i].phase
  {
  }

  /** A finished child stays finished the way it ended. */
  lemma {:induction false} DoneIsFinal(run: seq<State>, actions: seq<Action>, at: nat, later: nat, i: nat)
    requires IsRun(run, actions) && at <= later < |run|
    requires i < |run[at].children| && run[at].children[i].phase.Done?
    ensures i < |run[later].children| && run[later].children[i].phase == run[at].children[i].phase
  {
    if at == later {
    } else {
      DoneIsFinal(run, actions, at, later - 1, i);
      DoneStays(run[later - 1], actions[later - 1], i);
    }
  }

  /** A child is admitted only behind children that are there and have not failed, and begins by waiting. */
  lemma {:induction false} AdmissionMeans(s: State, exclusive: bool, deps: seq<nat>)
    ensures Enabled(s, Spawn(exclusive, deps)) <==> forall i :: 0 <= i < |deps| ==> deps[i] < |s.children| && s.children[deps[i]].phase != Done(false)
    ensures Enabled(s, Spawn(exclusive, deps)) ==>
              Apply(s, Spawn(exclusive, deps)) == s.(children := s.children + [Child(exclusive, deps, WaitDeps(0), false, false)])
  {
    forall i | 0 <= i < |deps| ensures deps[i] in deps {}
  }

  /** A child is what its admission asked for. */
  lemma {:induction false} ChildIsAsAdmitted(run: seq<State>, actions: seq<Action>, n: nat, i: nat) returns (k: nat)
    requires FromStart(run, actions) && n < |run| && i < |run[n].children|
    ensures k < n && actions[k] == Spawn(run[n].children[i].exclusive, run[n].children[i].deps) && |run[k].children| == i
  {
    if i < |run[n - 1].children| {
      OthersStay(run[n - 1], actions[n - 1], i);
      k := ChildIsAsAdmitted(run, actions, n - 1, i);
    } else {
      k := n - 1;
    }
  }

  // ---------- dependencies ----------

  predicate Succeeded(s: State, d: nat) {
    d < |s.children| && s.children[d].phase == Done(true)
  }

  /** The dependencies already waited for succeeded; past the wait, all of them did. */
  predicate DependenciesSucceeded(s: State, c: Child) {
    if c.phase.WaitDeps? then c.phase.next <= |c.deps| && forall k :: 0 <= k < c.phase.next ==> Succeeded(s, c.deps[k])
    else c.phase == Done(false) || forall d <- c.deps :: Succeeded(s, d)
  }

  predicate AllDependenciesSucceeded(s: State) {
    forall i :: 0 <= i < |s.children| ==> DependenciesSucceeded(s, s.children[i])
  }

  lemma {:induction false} SuccessKeepsDependencies(s: State, a: Action, c: Child)
    requires Enabled(s, a) && DependenciesSucceeded(s, c)
    ensures DependenciesSucceeded(Apply(s, a), c)
  {
    forall d: nat | Succeeded(s, d) ensures Succeeded(Apply(s, a), d) { DoneStays(s, a, d); }
  }

  lemma {:induction false} OwnStepKeepsDependencies(s: State, a: Action)
    requires (a.Advance? || a.GiveUp? || a.Finish?) && Enabled(s, a) && DependenciesSucceeded(s, s.children[a.child])
    ensures DependenciesSucceeded(s, s.children[a.child].(phase := Move(s, a).0))
  {
  }

  lemma {:induction false} StepKeepsDependencies(s: State, a: Action)
    requires Enabled(s, a) && AllDependenciesSucceeded(s)
    ensures AllDependenciesSucceeded(Apply(s, a))
  {
    var t := Apply(s, a);
    forall i | 0 <= i < |t.children| ensures DependenciesSucceeded(t, t.children[i]) {
      if i < |s.children| {
        OthersStay(s, a, i);
        if StepsChild(a, i) { OwnStepKeepsDependencies(s, a); }
        SuccessKeepsDependencies(s, a, s.children[i].(phase := t.children[i].phase));
      }
    }
  }

  lemma {:induction false} RunKeepsDependencies(run: seq<State>, actions: seq<Action>, n: nat)
    requires FromStart(run, actions) && n < |run|
    ensures AllDependenciesSucceeded(run[n])
  {
    if n == 0 {
    } else {
      RunKeepsDependencies(run, actions, n - 1);
      StepKeepsDependencies(run[n - 1], actions[n - 1]);
    }
  }

  /** In every state of every run: a waiting child has seen its first dependencies succeed, and any
      other child that has not failed has seen all of them succeed. */
  lemma {:induction false} DependenciesComeFirst(run: seq<State>, actions: seq<Action>, n: nat, i: nat)
    requires FromStart(run, actions) && n < |run| && i < |run[n].children|
    ensures var c := run[n].children[i];
            && (c.phase.WaitDeps? ==> c.phase.next <= |c.deps| && forall k :: 0 <= k < c.phase.next ==> Succeeded(run[n], c.deps[k]))
            && (!c.phase.WaitDeps? && c.phase != Done(false) ==> forall d <- c.deps :: Succeeded(run[n], d))
  {
    RunKeepsDependencies(run, actions, n);
  }

  /** A child with a failed dependency never leaves its wait but to fail. */
  lemma {:induction false} FailedDependencyIsFatal(run: seq<State>, actions: seq<Action>, at: nat, later: nat, i: nat, d: nat)
    requires FromStart(run, actions) && at <= later < |run| && i < |run[later].children| && d in run[later].children[i].deps
    requires d < |run[at].children| && run[at].children[d].phase == Done(false)
    ensures run[later].children[i].phase.WaitDeps? || run[later].children[i].phase == Done(false)
  {
    DoneIsFinal(run, actions, at, later, d);
    DependenciesComeFirst(run, actions, later, i);
  }

  // ---------- how a child ends ----------

  predicate Taken(actions: seq<Action>, n: nat, a: Action)
    requires n <= |actions|
  {
    a in actions[..n]
  }

  predicate WentWell(p: Phase) {
    p == Done(true) || p == ReleaseSlot(true) || (p.Releasing? && p.ok)
  }

  lemma {:induction false} TakenGrows(actions: seq<Action>, n: nat, a: Action)
    requires n < |actions|
    ensures Taken(actions, n + 1, a) <==> Taken(actions, n, a) || actions[n] == a
  {
    assert actions[..n + 1] == actions[..n] + [actions[n]];
  }

  lemma {:induction false} StepGoesWell(s: State, a: Action, i: nat)
    requires Enabled(s, a) && i < |s.children|
    ensures WentWell(Apply(s, a).children[i].phase) <==> WentWell(s.children[i].phase) || a == Finish(i, true)
  {
  }

  lemma {:induction false} NewChildIsFresh(s: State, a: Action, i: nat)
    requires Enabled(s, a) && |s.children| <= i < |Apply(s, a).children|
    ensures a.Spawn? && Apply(s, a).children[i].phase == WaitDeps(0)
    ensures !Apply(s, a).children[i].cancelled && !Apply(s, a).children[i].expired && !WentWell(Apply(s, a).children[i].phase)
  {
  }

  /** A child succeeds if and only if the run it executed returned success. */
  lemma {:induction false} SucceedsIffItsRunDid(run: seq<State>, actions: seq<Action>, n: nat, i: nat)
    requires FromStart(run, actions) && n < |run| && i < |run[n].children|
    ensures WentWell(run[n].children[i].phase) <==> Taken(actions, n, Finish(i, true))
    ensures run[n].children[i].phase.Done? ==> (run[n].children[i].phase == Done(true) <==> Taken(actions, n, Finish(i, true)))
  {
    GoesWellIffItsRunDid(run, actions, n, i);
  }

  lemma {:induction false} GoesWellIffItsRunDid(run: seq<State>, actions: seq<Action>, n: nat, i: nat)
    requires FromStart(run, actions) && n < |run| && i < |run[n].children|
    ensures WentWell(run[n].children[i].phase) <==> Taken(actions, n, Finish(i, true))
  {
    hide Apply, Enabled, WentWell, Taken;
    if n == 0 {
    } else {
      TakenGrows(actions, n - 1, Finish(i, true));
      if i < |run[n - 1].children| {
        GoesWellIffItsRunDid(run, actions, n - 1, i);
        StepGoesWell(run[n - 1], actions[n - 1], i);
      } else {
        NewChildIsFresh(run[n - 1], actions[n - 1], i);
        NothingTakenYet(run, actions, n - 1, i);
      }
    }
  }

  /** Nobody steps, cancels or expires a child before it is admitted. */
  lemma {:induction false} NothingTakenYet(run: seq<State>, actions: seq<Action>, n: nat, i: nat)
    requires FromStart(run, actions) && n < |run| && i >= |run[n].children|
    ensures forall a :: Taken(actions, n, a) ==> a.Spawn? || a.child != i
  {
    if n == 0 {
    } else {
      assert |run[n - 1].children| <= |run[n].children|;
      NothingTakenYet(run, actions, n - 1, i);
      forall a | Taken(actions, n, a) ensures a.Spawn? || a.child != i { TakenGrows(actions, n - 1, a); }
    }
  }

  lemma {:induction false} StepFlags(s: State, a: Action, i: nat)
    requires Enabled(s, a) && i < |s.children|
    ensures Apply(s, a).children[i].cancelled <==> s.children[i].cancelled || a == Cancel(i)
    ensures Apply(s, a).children[i].expired <==> s.children[i].expired || a == Cancel(i) || a == Expire(i)
  {
  }

  /** The flags of a child tell what was asked of it. */
  lemma {:induction false} FlagsTellTheRequests(run: seq<State>, actions: seq<Action>, n: nat, i: nat)
    requires FromStart(run, actions) && n < |run| && i < |run[n].children|
    ensures run[n].children[i].cancelled <==> Taken(actions, n, Cancel(i))
    ensures run[n].children[i].expired <==> Taken(actions, n, Cancel(i)) || Taken(actions, n, Expire(i))
  {
    if n == 0 {
    } else {
      TakenGrows(actions, n - 1, Cancel(i));
      TakenGrows(actions, n - 1, Expire(i));
      if i < |run[n - 1].children| {
        FlagsTellTheRequests(run, actions, n - 1, i);
        StepFlags(run[n - 1], actions[n - 1], i);
      } else {
        NothingTakenYet(run, actions, n - 1, i);
      }
    }
  }

  /** A child on its way out without success. */
  predicate WentWrong(p: Phase) {
    p == Done(false) || p == ReleaseSlot(false) || (p.Releasing? && !p.ok) || p.Undo? || p.UndoWriter?
  }

  predicate HasFailedDependency(s: State, c: Child) {
    exists d <- c.deps :: d < |s.children| && s.children[d].phase == Done(false)
  }

  /** The child was turned back between getting the workspace and starting. */
  ghost predicate TurnedBack(run: seq<State>, actions: seq<Action>, n: nat, i: nat)
    requires n <= |actions| < |run|
  {
    exists k :: 0 <= k < n && actions[k] == GiveUp(i) && i < |run[k].children| && run[k].children[i].phase == Admitted
  }

  ghost predicate HasCause(run: seq<State>, actions: seq<Action>, n: nat, i: nat)
    requires n <= |actions| < |run| && i < |run[n].children|
  {
    || Taken(actions, n, Cancel(i)) || Taken(actions, n, Expire(i)) || Taken(actions, n, Finish(i, false))
    || TurnedBack(run, actions, n, i) || HasFailedDependency(run[n], run[n].children[i])
  }

  lemma {:induction false} StepGoesWrong(s: State, a: Action, i: nat)
    requires Enabled(s, a) && i < |s.children| && WentWrong(Apply(s, a).children[i].phase)
    ensures var c := s.children[i];
            || WentWrong(c.phase) || c.cancelled || c.expired || a == Finish(i, false)
            || (a == GiveUp(i) && c.phase == Admitted) || HasFailedDependency(s, c)
  {
  }

  lemma {:induction false} CauseStays(run: seq<State>, actions: seq<Action>, n: nat, i: nat)
    requires FromStart(run, actions) && n + 1 < |run| && i < |run[n].children| && HasCause(run, actions, n, i)
    ensures HasCause(run, actions, n + 1, i)
  {
    TakenGrows(actions, n, Cancel(i));
    TakenGrows(actions, n, Expire(i));
    TakenGrows(actions, n, Finish(i, false));
    OthersStay(run[n], actions[n], i);
    if d :| d in run[n].children[i].deps && d < |run[n].children| && run[n].children[d].phase == Done(false) {
      DoneStays(run[n], actions[n], d);
    }
  }

  lemma {:induction false} CauseAppears(run: seq<State>, actions: seq<Action>, n: nat, i: nat)
    requires FromStart(run, actions) && n + 1 < |run| && i < |run[n].children|
    requires actions[n] == Finish(i, false) || (actions[n] == GiveUp(i) && run[n].children[i].phase == Admitted)
    ensures HasCause(run, actions, n + 1, i)
  {
    TakenGrows(actions, n, Finish(i, false));
    assert actions[n] == GiveUp(i) ==> TurnedBack(run, actions, n + 1, i);
  }

  /** No child fails without a cause: it was cancelled, its queue wait timed out, its run failed, it was
      turned back before it started, or one of its dependencies failed. */
  lemma {:induction false} FailureHasACause(run: seq<State>, actions: seq<Action>, n: nat, i: nat)
    requires FromStart(run, actions) && n < |run| && i < |run[n].children| && WentWrong(run[n].children[i].phase)
    ensures HasCause(run, actions, n, i)
  {
    if i < |run[n - 1].children| {
      var c := run[n - 1].children[i];
      StepGoesWrong(run[n - 1], actions[n - 1], i);
      FlagsTellTheRequests(run, actions, n - 1, i);
      if WentWrong(c.phase) {
        FailureHasACause(run, actions, n - 1, i);
        CauseStays(run, actions, n - 1, i);
      } else if HasCause(run, actions, n - 1, i) {
        CauseStays(run, actions, n - 1, i);
      } else {
        CauseAppears(run, actions, n - 1, i);
      }
    }
  }

  /** A wait for dependencies ends in failure only by cancellation or a failed dependency: the queue
      timeout does not run yet. */
  lemma {:induction false} WaitFailsOnlyForCause(s: State, a: Action, i: nat)
    requires Enabled(s, a) && i < |s.children| && s.children[i].phase.WaitDeps? && WentWrong(Apply(s, a).children[i].phase)
    ensures s.children[i].cancelled || HasFailedDependency(s, s.children[i])
  {
  }

  // ---------- cancellation ----------

  /** Every wait ends when its context does: cancellation ends the wait for dependencies, the queue timeout
      too those for slot and workspace. Nothing else ends them early, a full workspace is not given up, and
      an executing child answers only to its run. */
  lemma {:induction false} WaitsEndWithTheirContext(s: State, i: nat)
    requires i < |s.children|
    ensures var c, need := s.children[i], if s.children[i].exclusive then s.capacity else 1;
            var leaves := Enabled(s, GiveUp(i));
            && (leaves ==> WentWrong(Apply(s, GiveUp(i)).children[i].phase))
            && (c.phase.WaitDeps? ==> (leaves <==> c.cancelled))
            && (c.phase.WaitSlot? || c.phase.WaitWriter? || c.phase.WaitAdmission? ==> (leaves <==> c.expired))
            && (c.phase.Filling? ==> (leaves <==> c.expired && c.phase.acquired < need))
            && (c.phase.Executing? ==> !leaves && !Enabled(s, Advance(i)) && Enabled(s, Finish(i, true)) && Enabled(s, Finish(i, false)))
            && (!c.phase.Executing? ==> !Enabled(s, Finish(i, true)) && !Enabled(s, Finish(i, false)))
    ensures Enabled(s, Cancel(i)) <==> !s.children[i].cancelled
    ensures Enabled(s, Expire(i)) <==> !s.children[i].expired
  {
  }

  predicate BeforeExecution(p: Phase) {
    p.WaitDeps? || p.WaitSlot? || p.WaitWriter? || p.WaitAdmission? || p.Filling? || p.Admitted?
  }

  predicate Unstarted(c: Child) {
    c.cancelled && (BeforeExecution(c.phase) || WentWrong(c.phase))
  }

  lemma {:induction false} UnstartedStays(s: State, a: Action, i: nat)
    requires Enabled(s, a) && i < |s.children| && Unstarted(s.children[i])
    ensures Unstarted(Apply(s, a).children[i])
  {
  }

  /** A child cancelled before it executes never executes. */
  lemma {:induction false} CancelledNeverStarts(run: seq<State>, actions: seq<Action>, at: nat, later: nat, i: nat)
    requires IsRun(run, actions) && at <= later < |run| && i < |run[at].children| && Unstarted(run[at].children[i])
    ensures i < |run[later].children| && Unstarted(run[later].children[i]) && !run[later].children[i].phase.Executing?
  {
    if at == later {
    } else {
      CancelledNeverStarts(run, actions, at, later - 1, i);
      UnstartedStays(run[later - 1], actions[later - 1], i);
    }
  }

  // ---------- the concurrency limit ----------

  /** How many of the children hold a concurrency slot, by their phase. */
  function InFlight(cs: seq<Child>): nat {
    if cs == [] then 0
    else (if cs[0].phase.WaitDeps? || cs[0].phase.WaitSlot? || cs[0].phase.Done? then 0 else 1) + InFlight(cs[1..])
  }

  function Executes(cs: seq<Child>): nat {
    if cs == [] then 0 else (if cs[0].phase.Executing? then 1 else 0) + Executes(cs[1..])
  }

  lemma {:induction false} InFlightIsOwned(s: State, cs: seq<Child>)
    ensures Executes(cs) <= InFlight(cs) == Total(s, cs, Slot)
  {
    if cs == [] {
    } else {
      InFlightIsOwned(s, cs[1..]);
    }
  }

  /** At no time are more children between admission to the queue's slot and its release, and so
      executing, than the configured limit. */
  lemma {:induction false} ConcurrencyIsLimited(run: seq<State>, actions: seq<Action>, n: nat)
    requires FromStart(run, actions) && n < |run|
    ensures Executes(run[n].children) <= InFlight(run[n].children) <= run[0].capacity
  {
    InitialInv(run[0].capacity);
    RunKeepsInv(run, actions, n);
    InFlightIsOwned(run[n], run[n].children);
    assert Count(run[n], Slot) == Total(run[n], run[n].children, Slot) <= Limit(run[n], Slot);
  }

  // ---------- readers share the workspace ----------

  function Reader(phase: Phase): Child {
    Child(false, [], phase, false, false)
  }

  /** A reader at `phase` behind n executing ones, with the channels as they stand then. */
  predicate Joining(s: State, n: nat, phase: Phase, slot: nat, admission: nat, gate: nat) {
    && |s.children| == n + 1 && (forall i :: 0 <= i < n ==> s.children[i] == Reader(Executing)) && s.children[n] == Reader(phase)
    && Count(s, Slot) == n + slot && Count(s, Gate) == n + gate && Count(s, Admission) == admission
  }

  predicate AllReading(s: State, n: nat) {
    && |s.children| == n && (forall i :: 0 <= i < n ==> s.children[i] == Reader(Executing))
    && Count(s, Slot) == n && Count(s, Gate) == n && Count(s, Admission) == 0
  }

  lemma {:induction false} Extend(run: seq<State>, actions: seq<Action>, a: Action) returns (longer: seq<State>, more: seq<Action>)
    requires FromStart(run, actions) && Enabled(Last(run), a)
    ensures FromStart(longer, more) && Last(longer) == Apply(Last(run), a) && longer[0] == run[0]
    ensures Last(longer).capacity == Last(run).capacity
  {
    longer, more := run + [Apply(Last(run), a)], actions + [a];
  }

  lemma {:induction false} ReaderEnters(s: State, n: nat)
    requires n < s.capacity && AllReading(s, n)
    ensures Enabled(s, Spawn(false, [])) && Joining(Apply(s, Spawn(false, [])), n, WaitDeps(0), 0, 0, 0)
  {
  }

  lemma {:induction false} ReaderGetsSlot(s: State, n: nat)
    requires n < s.capacity
    ensures Joining(s, n, WaitDeps(0), 0, 0, 0) ==> Enabled(s, Advance(n)) && Joining(Apply(s, Advance(n)), n, WaitSlot, 0, 0, 0)
    ensures Joining(s, n, WaitSlot, 0, 0, 0) ==> Enabled(s, Advance(n)) && Joining(Apply(s, Advance(n)), n, WaitAdmission, 1, 0, 0)
  {
  }

  lemma {:induction false} ReaderGetsGate(s: State, n: nat)
    requires n < s.capacity
    ensures Joining(s, n, WaitAdmission, 1, 0, 0) ==> Enabled(s, Advance(n)) && Joining(Apply(s, Advance(n)), n, Filling(0), 1, 1, 0)
    ensures Joining(s, n, Filling(0), 1, 1, 0) ==> Enabled(s, Advance(n)) && Joining(Apply(s, Advance(n)), n, Filling(1), 1, 1, 1)
  {
  }

  lemma {:induction false} ReaderStarts(s: State, n: nat)
    requires n < s.capacity
    ensures Joining(s, n, Filling(1), 1, 1, 1) ==> Enabled(s, Advance(n)) && Joining(Apply(s, Advance(n)), n, Admitted, 1, 0, 1)
    ensures Joining(s, n, Admitted, 1, 0, 1) ==> Enabled(s, Advance(n)) && AllReading(Apply(s, Advance(n)), n + 1)
  {
  }

  /** Readers do execute together, up to the limit. */
  lemma {:induction false} ReadersShare(capacity: nat, n: nat) returns (run: seq<State>, actions: seq<Action>)
    requires 1 <= capacity && n <= capacity
    ensures FromStart(run, actions) && run[0].capacity == capacity
    ensures |Last(run).children| == n && forall c <- Last(run).children :: c.phase.Executing? && !c.exclusive
  {
    run, actions := ReadersRun(capacity, n);
  }

  lemma {:induction false} ReaderJoins(shorter: seq<State>, before: seq<Action>, n: nat) returns (run: seq<State>, actions: seq<Action>)
    requires FromStart(shorter, before) && AllReading(Last(shorter), n) && n < Last(shorter).capacity
    ensures FromStart(run, actions) && run[0] == shorter[0] && AllReading(Last(run), n + 1)
  {
    hide Apply, Enabled, Joining, AllReading;
    ReaderEnters(Last(shorter), n);
    run, actions := Extend(shorter, before, Spawn(false, []));
    ReaderGetsSlot(Last(run), n);
    run, actions := Extend(run, actions, Advance(n));
    ReaderGetsSlot(Last(run), n);
    run, actions := Extend(run, actions, Advance(n));
    ReaderGetsGate(Last(run), n);
    run, actions := Extend(run, actions, Advance(n));
    ReaderGetsGate(Last(run), n);
    run, actions := Extend(run, actions, Advance(n));
    ReaderStarts(Last(run), n);
    run, actions := Extend(run, actions, Advance(n));
    ReaderStarts(Last(run), n);
    run, actions := Extend(run, actions, Advance(n));
  }

  lemma {:induction false} ReadersRun(capacity: nat, n: nat) returns (run: seq<State>, actions: seq<Action>)
    requires 1 <= capacity && n <= capacity
    ensures FromStart(run, actions) && run[0].capacity == capacity && AllReading(Last(run), n)
  {
    if n == 0 {
      run, actions := [Initial(capacity)], [];
    } else {
      run, actions := ReadersRun(capacity, n - 1);
      CapacityStays(run, actions);
      run, actions := ReaderJoins(run, actions, n - 1);
    }
  }

  lemma {:induction false} CapacityStays(run: seq<State>, actions: seq<Action>)
    requires FromStart(run, actions)
    ensures Last(run).capacity == run[0].capacity
  {
    InitialInv(run[0].capacity);
    RunKeepsInv(run, actions, |run| - 1);
  }
}
