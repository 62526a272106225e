/** Child scheduling (internal/feature/agent): dependency waits, the concurrency
    semaphore, and the readers/writer workspace gate built from three counting
    channels. Every channel operation and every cancellation is one atomic step. */
module WorkspaceScheduler {

  /** The counting channels: `Slot` is the concurrency semaphore, the other three are the workspace. */
  datatype Resource = Slot | Writer | Admission | Gate

  datatype Phase =
    | WaitDeps(next: nat)                 // next dependency whose done channel is awaited
    | WaitSlot
    | WaitWriter                          // exclusive children only
    | WaitAdmission
    | Filling(acquired: nat)              // owns admission, collecting gate tokens
    | Admitted                            // acquireWorkspace returned, not started yet
    | Executing
    | Undo(acquired: nat)                 // cancelled while filling
    | UndoWriter
    | Releasing(released: nat, ok: bool)
    | ReleaseSlot(ok: bool)
    | Done(ok: bool)

  /** `cancelled` is the child's run context, `expired` its queue context. */
  datatype Child = Child(exclusive: bool, deps: seq<nat>, phase: Phase, cancelled: bool, expired: bool)

  datatype State = State(capacity: nat, children: seq<Child>, tokens: map<Resource, nat>)

  datatype Action =
    | Spawn(exclusive: bool, deps: seq<nat>)
    | Cancel(child: nat)
    | Expire(child: nat)
    | Advance(child: nat)                 // the channel operation (or quiet move) the child is at
    | GiveUp(child: nat)                  // the ctx.Done() branch
    | Finish(child: nat, success: bool)   // the executed run returns

  /** What one child step does to the channels. */
  datatype Effect = Quiet | Send(r: Resource) | Receive(r: Resource) | Blocked

  function Limit(s: State, r: Resource): nat {
    if r == Writer || r == Admission then 1 else s.capacity
  }

  /** Gate tokens a child needs: all of them when it mutates, one when it reads. */
  function Need(s: State, c: Child): nat {
    if c.exclusive then s.capacity else 1
  }

  function AdvanceMove(s: State, c: Child): (Phase, Effect) {
    match c.phase
    case WaitDeps(k) =>
      if k >= |c.deps| then (WaitSlot, Quiet)
      else if c.deps[k] < |s.children| && s.children[c.deps[k]].phase.Done? then
        (if s.children[c.deps[k]].phase.ok then WaitDeps(k + 1) else Done(false), Quiet)
      else (c.phase, Blocked)
    case WaitSlot => (if c.exclusive then WaitWriter else WaitAdmission, Send(Slot))
    case WaitWriter => (WaitAdmission, Send(Writer))
    case WaitAdmission => (Filling(0), Send(Admission))
    case Filling(a) => if a < Need(s, c) then (Filling(a + 1), Send(Gate)) else (Admitted, Receive(Admission))
    case Admitted => if c.cancelled then (c.phase, Blocked) else (Executing, Quiet)
    case Undo(a) =>
      if a > 0 then (Undo(a - 1), Receive(Gate))
      else (if c.exclusive then UndoWriter else ReleaseSlot(false), Receive(Admission))
    case UndoWriter => (ReleaseSlot(false), Receive(Writer))
    case Releasing(r, ok) =>
      if r < Need(s, c) then (Releasing(r + 1, ok), Receive(Gate))
      else (ReleaseSlot(ok), if c.exclusive then Receive(Writer) else Quiet)
    case ReleaseSlot(ok) => (Done(ok), Receive(Slot))
    case Executing => (c.phase, Blocked)
    case Done(_) => (c.phase, Blocked)
  }

  function GiveUpMove(s: State, c: Child): (Phase, Effect) {
    match c.phase
    case WaitDeps(_) => if c.cancelled then (Done(false), Quiet) else (c.phase, Blocked)
    case WaitSlot => if c.expired then (Done(false), Quiet) else (c.phase, Blocked)
    case WaitWriter => if c.expired then (ReleaseSlot(false), Quiet) else (c.phase, Blocked)
    case WaitAdmission =>
      if c.expired then (if c.exclusive then UndoWriter else ReleaseSlot(false), Quiet) else (c.phase, Blocked)
    case Filling(a) => if c.expired && a < Need(s, c) then (Undo(a), Quiet) else (c.phase, Blocked)
    case Admitted => (Releasing(0, false), Quiet)
    case _ => (c.phase, Blocked)
  }

  function Move(s: State, a: Action): (Phase, Effect)
    requires (a.Advance? || a.GiveUp? || a.Finish?) && a.child < |s.children|
  {
    var c := s.children[a.child];
    match a
    case Advance(_) => AdvanceMove(s, c)
    case GiveUp(_) => GiveUpMove(s, c)
    case Finish(_, ok) => if c.phase.Executing? then (Releasing(0, ok), Quiet) else (c.phase, Blocked)
  }

  function Count(s: State, r: Resource): nat {
    if r in s.tokens then s.tokens[r] else 0
  }

  predicate CanHappen(s: State, e: Effect) {
    match e
    case Quiet => true
    case Send(r) => Count(s, r) < Limit(s, r)
    case Receive(r) => Count(s, r) > 0
    case Blocked => false
  }

  predicate Enabled(s: State, a: Action) {
    match a
    case Spawn(_, deps) => forall d <- deps :: d < |s.children| && s.children[d].phase != Done(false)
    case Cancel(i) => i < |s.children| && !s.children[i].cancelled
    case Expire(i) => i < |s.children| && !s.children[i].expired
    case _ => a.child < |s.children| && CanHappen(s, Move(s, a).1)
  }

  function Shift(s: State, e: Effect): map<Resource, nat>
    requires CanHappen(s, e)
  {
    match e
    case Send(r) => s.tokens[r := Count(s, r) + 1]
    case Receive(r) => s.tokens[r := Count(s, r) - 1]
    case _ => s.tokens
  }

  function Apply(s: State, a: Action): State
    requires Enabled(s, a)
  {
    match a
    case Spawn(x, deps) => s.(children := s.children + [Child(x, deps, WaitDeps(0), false, false)])
    case Cancel(i) => s.(children := s.children[i := s.children[i].(cancelled := true, expired := true)])
    case Expire(i) => s.(children := s.children[i := s.children[i].(expired := true)])
    case _ =>
      var (phase, effect) := Move(s, a);
      s.(children := s.children[a.child := s.children[a.child].(phase := phase)], tokens := Shift(s, effect))
  }

  // ---------- ownership ----------

  /** How many tokens of a channel the child's program position says it owns. */
  function Held(s: State, c: Child, r: Resource): nat {
    match r
    case Slot => if c.phase.WaitDeps? || c.phase.WaitSlot? || c.phase.Done? then 0 else 1
    case Writer =>
      if c.exclusive && (c.phase.WaitAdmission? || c.phase.Filling? || c.phase.Admitted? || c.phase.Executing?
                         || c.phase.Undo? || c.phase.UndoWriter? || c.phase.Releasing?) then 1 else 0
    case Admission => if c.phase.Filling? || c.phase.Undo? then 1 else 0
    case Gate =>
      match c.phase
      case Filling(a) => a
      case Undo(a) => a
      case Admitted => Need(s, c)
      case Executing => Need(s, c)
      case Releasing(k, _) => if k <= Need(s, c) then Need(s, c) - k else 0
      case _ => 0
  }

  function Total(s: State, cs: seq<Child>, r: Resource): nat {
    if cs == [] then 0 else Held(s, cs[0], r) + Total(s, cs[1..], r)
  }

  predicate WellFormedChild(s: State, i: nat, c: Child) {
    && (forall d <- c.deps :: d < i)
    && (c.phase.WaitDeps? ==> c.phase.next <= |c.deps|)
    && (c.phase.WaitWriter? || c.phase.UndoWriter? ==> c.exclusive)
    && (c.phase.Filling? || c.phase.Undo? ==> c.phase.acquired <= Need(s, c))
    && (c.phase.Releasing? ==> c.phase.released <= Need(s, c))
  }

  /** The channels hold exactly what the children own, within capacity. */
  predicate Inv(s: State) {
    && s.capacity >= 1
    && (forall i :: 0 <= i < |s.children| ==> WellFormedChild(s, i, s.children[i]))
    && (forall r: Resource :: Count(s, r) == Total(s, s.children, r) && Count(s, r) <= Limit(s, r))
  }

  function Initial(capacity: nat): State {
    State(capacity, [], map[])
  }

  lemma {:induction false} TotalAppend(s: State, cs: seq<Child>, c: Child, r: Resource)
    ensures Total(s, cs + [c], r) == Total(s, cs, r) + Held(s, c, r)
  {
    if cs == [] {
      assert cs + [c] == [c];
    } else {
      assert (cs + [c])[1..] == cs[1..] + [c];
      TotalAppend(s, cs[1..], c, r);
    }
  }

  lemma {:induction false} TotalUpdate(s: State, cs: seq<Child>, i: nat, c: Child, r: Resource)
    requires i < |cs|
    ensures Total(s, cs[i := c], r) == Total(s, cs, r) - Held(s, cs[i], r) + Held(s, c, r)
    ensures Total(s, cs, r) >= Held(s, cs[i], r)
  {
    if i == 0 {
      assert cs[0 := c][1..] == cs[1..];
    } else {
      assert cs[i := c][1..] == cs[1..][i - 1 := c];
      TotalUpdate(s, cs[1..], i - 1, c, r);
    }
  }

  /** Total only looks at the capacity of the state. */
  lemma {:induction false} TotalDependsOnCapacity(s: State, t: State, cs: seq<Child>, r: Resource)
    requires s.capacity == t.capacity
    ensures Total(s, cs, r) == Total(t, cs, r)
  {
    if cs == [] {
    } else {
      TotalDependsOnCapacity(s, t, cs[1..], r);
    }
  }

  lemma {:induction false} TwoHolders(s: State, cs: seq<Child>, i: nat, j: nat, r: Resource)
    requires i < j < |cs|
    ensures Held(s, cs[i], r) + Held(s, cs[j], r) <= Total(s, cs, r)
  {
    if i == 0 {
      TotalUpdate(s, cs[1..], j - 1, cs[j], r);
    } else {
      TwoHolders(s, cs[1..], i - 1, j - 1, r);
    }
  }

  lemma {:induction false} NobodyHolds(s: State, cs: seq<Child>, r: Resource)
    requires forall c <- cs :: Held(s, c, r) == 0
    ensures Total(s, cs, r) == 0
  {
    if cs == [] {
    } else {
      NobodyHolds(s, cs[1..], r);
    }
  }

  function Delta(e: Effect, r: Resource): int {
    match e
    case Send(x) => if x == r then 1 else 0
    case Receive(x) => if x == r then -1 else 0
    case _ => 0
  }

  lemma {:induction false} AdvanceMovesOwnership(s: State, i: nat, c: Child, r: Resource)
    requires WellFormedChild(s, i, c) && AdvanceMove(s, c).1 != Blocked
    ensures var (phase, effect) := AdvanceMove(s, c);
            Held(s, c.(phase := phase), r) == Held(s, c, r) + Delta(effect, r)
  {
  }

  lemma {:induction false} AdvanceStaysWellFormed(s: State, i: nat, c: Child)
    requires WellFormedChild(s, i, c) && AdvanceMove(s, c).1 != Blocked
    ensures WellFormedChild(s, i, c.(phase := AdvanceMove(s, c).0))
  {
  }

  lemma {:induction false} GiveUpMovesOwnership(s: State, i: nat, c: Child, r: Resource)
    requires WellFormedChild(s, i, c) && GiveUpMove(s, c).1 != Blocked
    ensures var (phase, effect) := GiveUpMove(s, c);
            && Held(s, c.(phase := phase), r) == Held(s, c, r) + Delta(effect, r)
            && WellFormedChild(s, i, c.(phase := phase))
  {
  }

  /** A step changes what the child owns by exactly what it does to the channel. */
  lemma {:induction false} StepMovesOwnership(s: State, a: Action, r: Resource)
    requires Inv(s) && (a.Advance? || a.GiveUp? || a.Finish?) && Enabled(s, a)
    ensures var c := s.children[a.child];
            var (phase, effect) := Move(s, a);
            && Held(s, c.(phase := phase), r) == Held(s, c, r) + Delta(effect, r)
            && WellFormedChild(s, a.child, c.(phase := phase))
  {
    var c := s.children[a.child];
    assert WellFormedChild(s, a.child, c);
    match a {
      case Advance(i) =>
        AdvanceMovesOwnership(s, i, c, r);
        AdvanceStaysWellFormed(s, i, c);
      case GiveUp(i) => GiveUpMovesOwnership(s, i, c, r);
      case Finish(_, _) =>
    }
  }

  /** The state with one child changed and one effect carried out. */
  function Replaced(s: State, i: nat, c: Child, e: Effect): State
    requires i < |s.children| && CanHappen(s, e)
  {
    s.(children := s.children[i := c], tokens := Shift(s, e))
  }

  lemma {:induction false} ReplacedKeepsCount(s: State, i: nat, c: Child, e: Effect, r: Resource)
    requires Inv(s) && i < |s.children| && CanHappen(s, e)
    requires Held(s, c, r) == Held(s, s.children[i], r) + Delta(e, r)
    ensures var t := Replaced(s, i, c, e); Count(t, r) == Total(t, t.children, r) && Count(t, r) <= Limit(t, r)
  {
    var t := Replaced(s, i, c, e);
    TotalUpdate(s, s.children, i, c, r);
    TotalDependsOnCapacity(s, t, t.children, r);
    assert Count(s, r) == Total(s, s.children, r) && Count(s, r) <= Limit(s, r);
  }

  lemma {:induction false} ReplacedKeepsInv(s: State, i: nat, c: Child, e: Effect)
    requires Inv(s) && i < |s.children| && CanHappen(s, e) && WellFormedChild(s, i, c)
    requires forall r: Resource :: Held(s, c, r) == Held(s, s.children[i], r) + Delta(e, r)
    ensures Inv(Replaced(s, i, c, e))
  {
    var t := Replaced(s, i, c, e);
    forall r: Resource ensures Count(t, r) == Total(t, t.children, r) && Count(t, r) <= Limit(t, r) {
      ReplacedKeepsCount(s, i, c, e, r);
    }
    forall j | 0 <= j < |t.children| ensures WellFormedChild(t, j, t.children[j]) {
      assert WellFormedChild(s, j, if j == i then c else s.children[j]);
    }
  }

  lemma {:induction false} ChildStepKeepsInv(s: State, a: Action)
    requires Inv(s) && (a.Advance? || a.GiveUp? || a.Finish?) && Enabled(s, a)
    ensures Inv(Apply(s, a))
  {
    var c := s.children[a.child];
    var (phase, effect) := Move(s, a);
    forall r: Resource ensures Held(s, c.(phase := phase), r) == Held(s, c, r) + Delta(effect, r) {
      StepMovesOwnership(s, a, r);
    }
    StepMovesOwnership(s, a, Slot);
    ReplacedKeepsInv(s, a.child, c.(phase := phase), effect);
  }

  /** Every step of every interleaving keeps the channels equal to what is owned. */
  lemma {:induction false} StepKeepsInv(s: State, a: Action)
    requires Inv(s) && Enabled(s, a)
    ensures Inv(Apply(s, a))
  {
    var t := Apply(s, a);
    match a {
      case Spawn(x, deps) =>
        forall r: Resource ensures Count(t, r) == Total(t, t.children, r) && Count(t, r) <= Limit(t, r) {
          TotalAppend(s, s.children, t.children[|s.children|], r);
          TotalDependsOnCapacity(s, t, t.children, r);
        }
        forall i | 0 <= i < |t.children| ensures WellFormedChild(t, i, t.children[i]) {
          if i < |s.children| { assert WellFormedChild(s, i, s.children[i]); }
        }
      case Cancel(i) => FlagsKeepInv(s, i, true, true);
      case Expire(i) => FlagsKeepInv(s, i, s.children[i].cancelled, true);
      case _ => ChildStepKeepsInv(s, a);
    }
  }

  lemma {:induction false} FlagsKeepInv(s: State, i: nat, cancelled: bool, expired: bool)
    requires Inv(s) && i < |s.children|
    ensures Inv(s.(children := s.children[i := s.children[i].(cancelled := cancelled, expired := expired)]))
  {
    var c := s.children[i].(cancelled := cancelled, expired := expired);
    assert WellFormedChild(s, i, s.children[i]);
    ReplacedKeepsInv(s, i, c, Quiet);
  }

  // ---------- runs ----------

  /** A finite run: states linked by enabled actions. */
  ghost predicate IsRun(run: seq<State>, actions: seq<Action>) {
    && |run| == |actions| + 1
    && forall i :: 0 <= i < |actions| ==> Enabled(run[i], actions[i]) && run[i + 1] == Apply(run[i], actions[i])
  }

  function Last(run: seq<State>): State
    requires run != []
  {
    run[|run| - 1]
  }

  predicate AllDone(s: State) {
    forall c <- s.children :: c.phase.Done?
  }

  ghost predicate NothingHeld(s: State) {
    forall r: Resource :: Count(s, r) == 0
  }

  lemma {:induction false} RunKeepsInv(run: seq<State>, actions: seq<Action>, i: nat)
    requires IsRun(run, actions) && Inv(run[0]) && i < |run|
    ensures Inv(run[i]) && run[i].capacity == run[0].capacity
  {
    if i == 0 {
    } else {
      RunKeepsInv(run, actions, i - 1);
      StepKeepsInv(run[i - 1], actions[i - 1]);
    }
  }

  /** In every state of every run, a mutating child that has the workspace has it alone. */
  lemma {:induction false} WriterExcludesAll(run: seq<State>, actions: seq<Action>, at: nat, i: nat, j: nat)
    requires IsRun(run, actions) && run[0] == Initial(run[0].capacity) && run[0].capacity >= 1
    requires at < |run| && i < |run[at].children| && j < |run[at].children| && i != j
    requires run[at].children[i].exclusive
    requires run[at].children[i].phase.Admitted? || run[at].children[i].phase.Executing?
    ensures Held(run[at], run[at].children[j], Gate) == 0
    ensures !run[at].children[j].phase.Executing? && !run[at].children[j].phase.Admitted?
  {
    InitialInv(run[0].capacity);
    RunKeepsInv(run, actions, at);
    var s := run[at];
    if i < j { TwoHolders(s, s.children, i, j, Gate); } else { TwoHolders(s, s.children, j, i, Gate); }
    assert Count(s, Gate) <= Limit(s, Gate);
  }

  lemma {:induction false} InitialInv(capacity: nat)
    requires capacity >= 1
    ensures Inv(Initial(capacity))
  {
  }

  /** Finished children own nothing: with every child done, all four channels are empty,
      whatever mix of completions, cancellations and timeouts led there. */
  lemma {:induction false} AllDoneReturnsEverything(run: seq<State>, actions: seq<Action>)
    requires IsRun(run, actions) && run[0] == Initial(run[0].capacity) && run[0].capacity >= 1
    requires AllDone(Last(run))
    ensures NothingHeld(Last(run))
  {
    InitialInv(run[0].capacity);
    var s := Last(run);
    RunKeepsInv(run, actions, |run| - 1);
    forall r: Resource ensures Count(s, r) == 0 {
      NobodyHolds(s, s.children, r);
      assert Count(s, r) == Total(s, s.children, r);
    }
  }

  // ---------- writers are not overtaken ----------

  lemma {:induction false} AdmissionIsExclusive(s: State, i: nat, j: nat)
    requires Inv(s) && i < |s.children| && j < |s.children| && i != j
    requires Held(s, s.children[i], Admission) == 1
    ensures Held(s, s.children[j], Admission) == 0
  {
    assert Count(s, Admission) == Total(s, s.children, Admission) <= Limit(s, Admission);
    if i < j { TwoHolders(s, s.children, i, j, Admission); } else { TwoHolders(s, s.children, j, i, Admission); }
  }

  ghost predicate IsFilling(s: State, w: nat) {
    w < |s.children| && s.children[w].phase.Filling?
  }

  /** While an exclusive child owns admission, one step of anybody adds no gate token to anybody else. */
  lemma {:induction false} DrainingStep(s: State, a: Action, w: nat, j: nat)
    requires Inv(s) && Enabled(s, a) && w < |s.children| && j < |s.children| && j != w
    requires s.children[w].phase.Filling?
    ensures Held(s, Apply(s, a).children[j], Gate) <= Held(s, s.children[j], Gate)
  {
    AdmissionIsExclusive(s, w, j);
    if (a.Advance? || a.GiveUp? || a.Finish?) && a.child == j {
      StepMovesOwnership(s, a, Gate);
    }
  }

  /** From the moment a writer owns admission until it stops filling, readers only leave: no other
      child ever holds more gate tokens than when the writer began. */
  lemma {:induction false} ReadersCannotOvertake(run: seq<State>, actions: seq<Action>, w: nat, j: nat, i: nat)
    requires IsRun(run, actions) && Inv(run[0]) && i < |run| && j != w
    requires forall k :: 0 <= k < |run| ==> IsFilling(run[k], w)
    ensures j < |run[i].children| ==>
              Held(run[0], run[i].children[j], Gate) <= if j < |run[0].children| then Held(run[0], run[0].children[j], Gate) else 0
    decreases i
  {
    if i == 0 {
    } else {
      ReadersCannotOvertake(run, actions, w, j, i - 1);
      RunKeepsInv(run, actions, i - 1);
      ChildrenGrow(run, actions, i - 1);
      GateStep(run[i - 1], actions[i - 1], w, j);
      HeldDependsOnCapacity(run[0], run[i - 1]);
    }
  }

  /** The same for one step, a child spawned by the step included. */
  lemma {:induction false} GateStep(s: State, a: Action, w: nat, j: nat)
    requires Inv(s) && Enabled(s, a) && IsFilling(s, w) && j != w
    ensures j < |Apply(s, a).children| ==>
              Held(s, Apply(s, a).children[j], Gate) <= if j < |s.children| then Held(s, s.children[j], Gate) else 0
  {
    if j < |s.children| { DrainingStep(s, a, w, j); }
  }

  lemma {:induction false} HeldDependsOnCapacity(s: State, t: State)
    requires s.capacity == t.capacity
    ensures forall c: Child, r: Resource :: Held(s, c, r) == Held(t, c, r)
  {
  }

  lemma {:induction false} ChildrenGrow(run: seq<State>, actions: seq<Action>, i: nat)
    requires IsRun(run, actions) && i < |run|
    ensures |run[0].children| <= |run[i].children|
  {
    if i == 0 {
    } else {
      ChildrenGrow(run, actions, i - 1);
    }
  }

  // ---------- no deadlock ----------

  /** The child can take a step of its own: nobody needs to be cancelled or spawned. */
  predicate CanMove(s: State, i: nat) {
    Enabled(s, Advance(i)) || Enabled(s, GiveUp(i)) || Enabled(s, Finish(i, true))
  }

  predicate Waiting(c: Child) {
    c.phase.WaitDeps? || c.phase.WaitSlot? || c.phase.WaitWriter? || c.phase.WaitAdmission? || c.phase.Filling?
  }

  /** A child that is past its waits never blocks: the tokens it gives back are there. */
  lemma {:induction false} PastWaitsNeverBlock(s: State, i: nat)
    requires Inv(s) && i < |s.children| && !s.children[i].phase.Done? && !Waiting(s.children[i])
    ensures CanMove(s, i)
  {
    var c := s.children[i];
    forall r: Resource ensures Held(s, c, r) <= Count(s, r) {
      TotalUpdate(s, s.children, i, c, r);
      assert Count(s, r) == Total(s, s.children, r);
    }
    assert WellFormedChild(s, i, c);
    if c.phase.Executing? { assert Enabled(s, Finish(i, true)); }
    else if c.phase.Admitted? { assert Enabled(s, GiveUp(i)); }
    else { assert Enabled(s, Advance(i)); }
  }

  /** If nobody holds a token of a channel, sending on it cannot block. */
  lemma {:induction false} EmptyChannel(s: State, r: Resource)
    requires Inv(s) && forall c <- s.children :: Held(s, c, r) == 0
    ensures Count(s, r) < Limit(s, r)
  {
    NobodyHolds(s, s.children, r);
    assert Count(s, r) == Total(s, s.children, r);
  }

  lemma {:induction false} FillerMoves(s: State, i: nat)
    requires Inv(s) && i < |s.children| && s.children[i].phase.Filling?
    requires forall c <- s.children :: c.phase.Done? || Waiting(c)
    ensures CanMove(s, i)
  {
    var c := s.children[i];
    assert WellFormedChild(s, i, c);
    if c.phase.acquired < Need(s, c) {
      var empty := s.children[i := c.(phase := WaitAdmission)];
      forall x <- empty ensures Held(s, x, Gate) == 0 {
        var j :| 0 <= j < |empty| && empty[j] == x;
        if j != i { AdmissionIsExclusive(s, i, j); }
      }
      NobodyHolds(s, empty, Gate);
      TotalUpdate(s, s.children, i, c.(phase := WaitAdmission), Gate);
      assert Count(s, Gate) == Total(s, s.children, Gate);
    } else {
      TotalUpdate(s, s.children, i, c, Admission);
      assert Count(s, Admission) == Total(s, s.children, Admission);
    }
    assert Enabled(s, Advance(i));
  }

  /** Among children all waiting on dependencies, the earliest unfinished one can go on. */
  lemma {:induction false} EarliestMoves(s: State, i: nat) returns (k: nat)
    requires Inv(s) && i < |s.children| && s.children[i].phase.WaitDeps?
    requires forall c <- s.children :: c.phase.Done? || c.phase.WaitDeps?
    ensures k < |s.children| && CanMove(s, k)
    decreases i
  {
    var c := s.children[i];
    assert WellFormedChild(s, i, c);
    var n := c.phase.next;
    if n < |c.deps| {
      assert c.deps[n] in c.deps;
    }
    if n < |c.deps| && !s.children[c.deps[n]].phase.Done? {
      k := EarliestMoves(s, c.deps[n]);
    } else {
      k := i;
      assert Enabled(s, Advance(i));
    }
  }

  /** In every state satisfying the invariant, some child can step unless all are done:
      no interleaving of cancellations, timeouts and acquisitions deadlocks. */
  lemma {:induction false} NoDeadlock(s: State) returns (k: nat)
    requires Inv(s) && !AllDone(s)
    ensures k < |s.children| && CanMove(s, k)
  {
    if i :| 0 <= i < |s.children| && !s.children[i].phase.Done? && !Waiting(s.children[i]) {
      PastWaitsNeverBlock(s, i);
      return i;
    }
    if i :| 0 <= i < |s.children| && s.children[i].phase.Filling? {
      FillerMoves(s, i);
      return i;
    }
    if i :| 0 <= i < |s.children| && s.children[i].phase.WaitAdmission? {
      EmptyChannel(s, Admission);
      assert Enabled(s, Advance(i));
      return i;
    }
    if i :| 0 <= i < |s.children| && s.children[i].phase.WaitWriter? {
      EmptyChannel(s, Writer);
      assert Enabled(s, Advance(i));
      return i;
    }
    if i :| 0 <= i < |s.children| && s.children[i].phase.WaitSlot? {
      EmptyChannel(s, Slot);
      assert Enabled(s, Advance(i));
      return i;
    }
    var i :| 0 <= i < |s.children| && !s.children[i].phase.Done?;
    k := EarliestMoves(s, i);
  }

  // ---------- every run is finite once admissions stop ----------

  /** Steps the phase leaves ahead, for a child with that need and that many dependencies. */
  function Rank(phase: Phase, need: nat, deps: nat): nat {
    match phase
    case Done(_) => 0
    case ReleaseSlot(_) => 1
    case UndoWriter => 2
    case Undo(a) => 3 + a
    case Releasing(k, _) => 2 + (if k <= need then need - k else 0)
    case Executing => 3 + need
    case Admitted => 4 + need
    case Filling(a) => 5 + need + (if a <= need then need - a else 0)
    case WaitAdmission => 6 + 2 * need
    case WaitWriter => 7 + 2 * need
    case WaitSlot => 8 + 2 * need
    case WaitDeps(k) => 9 + 2 * need + (if k <= deps then deps - k else 0)
  }

  /** Steps a child may still take, cancellation and timeout included. */
  function Remaining(s: State, c: Child): nat {
    (if c.cancelled then 0 else 1) + (if c.expired then 0 else 1) + Rank(c.phase, Need(s, c), |c.deps|)
  }

  /** Everything an admitted child can ever do, its admission included. */
  function Lifetime(s: State, c: Child): nat {
    12 + 2 * Need(s, c) + |c.deps|
  }

  function Budget(s: State, cs: seq<Child>): nat {
    if cs == [] then 0 else Lifetime(s, cs[0]) + Budget(s, cs[1..])
  }

  function Work(s: State, cs: seq<Child>): nat {
    if cs == [] then 0 else Remaining(s, cs[0]) + Work(s, cs[1..])
  }

  lemma {:induction false} SumsUpdate(s: State, cs: seq<Child>, i: nat, c: Child)
    requires i < |cs| && c.exclusive == cs[i].exclusive && c.deps == cs[i].deps
    ensures Work(s, cs[i := c]) == Work(s, cs) - Remaining(s, cs[i]) + Remaining(s, c)
    ensures Budget(s, cs[i := c]) == Budget(s, cs)
  {
    if i == 0 {
      assert cs[0 := c][1..] == cs[1..];
    } else {
      assert cs[i := c][1..] == cs[1..][i - 1 := c];
      SumsUpdate(s, cs[1..], i - 1, c);
    }
  }

  lemma {:induction false} SumsAppend(s: State, cs: seq<Child>, c: Child)
    ensures Work(s, cs + [c]) == Work(s, cs) + Remaining(s, c)
    ensures Budget(s, cs + [c]) == Budget(s, cs) + Lifetime(s, c)
  {
    if cs == [] {
      assert cs + [c] == [c];
    } else {
      assert (cs + [c])[1..] == cs[1..] + [c];
      SumsAppend(s, cs[1..], c);
    }
  }

  lemma {:induction false} SumsDependOnCapacity(s: State, t: State, cs: seq<Child>)
    requires s.capacity == t.capacity
    ensures Work(s, cs) == Work(t, cs) && Budget(s, cs) == Budget(t, cs)
  {
    if cs == [] {
    } else {
      SumsDependOnCapacity(s, t, cs[1..]);
    }
  }

  /** What the admitted children have not spent yet. */
  function Unspent(s: State): int {
    Budget(s, s.children) - Work(s, s.children)
  }

  lemma {:induction false} AdvanceDropsRank(s: State, i: nat, c: Child)
    requires WellFormedChild(s, i, c) && AdvanceMove(s, c).1 != Blocked
    ensures Rank(AdvanceMove(s, c).0, Need(s, c), |c.deps|) < Rank(c.phase, Need(s, c), |c.deps|)
  {
  }

  lemma {:induction false} GiveUpDropsRank(s: State, i: nat, c: Child)
    requires WellFormedChild(s, i, c) && GiveUpMove(s, c).1 != Blocked
    ensures Rank(GiveUpMove(s, c).0, Need(s, c), |c.deps|) < Rank(c.phase, Need(s, c), |c.deps|)
  {
  }

  lemma {:induction false} RemainingDrops(s: State, a: Action)
    requires (a.Advance? || a.GiveUp? || a.Finish?) && Enabled(s, a)
    requires WellFormedChild(s, a.child, s.children[a.child])
    ensures var c := s.children[a.child]; Remaining(s, c.(phase := Move(s, a).0)) < Remaining(s, c)
  {
    var c := s.children[a.child];
    match a {
      case Advance(_) => AdvanceDropsRank(s, a.child, c);
      case GiveUp(_) => GiveUpDropsRank(s, a.child, c);
      case Finish(_, _) =>
    }
  }

  /** Each step uses up some of the work of the admitted children. */
  lemma {:induction false} StepSpends(s: State, a: Action)
    requires Inv(s) && Enabled(s, a)
    ensures Unspent(Apply(s, a)) >= Unspent(s) + 1
  {
    var t := Apply(s, a);
    SumsDependOnCapacity(s, t, t.children);
    match a {
      case Spawn(x, deps) => SumsAppend(s, s.children, t.children[|s.children|]);
      case Cancel(i) => SumsUpdate(s, s.children, i, t.children[i]);
      case Expire(i) => SumsUpdate(s, s.children, i, t.children[i]);
      case _ =>
        assert WellFormedChild(s, a.child, s.children[a.child]);
        RemainingDrops(s, a);
        SumsUpdate(s, s.children, a.child, t.children[a.child]);
    }
  }

  lemma {:induction false} RunSpends(run: seq<State>, actions: seq<Action>, i: nat)
    requires IsRun(run, actions) && Inv(run[0]) && i < |run|
    ensures Unspent(run[i]) >= Unspent(run[0]) + i
  {
    if i == 0 {
    } else {
      RunSpends(run, actions, i - 1);
      RunKeepsInv(run, actions, i - 1);
      StepSpends(run[i - 1], actions[i - 1]);
    }
  }

  /** A run never has more steps than the lifetimes of the children it admitted; with
      NoDeadlock, once admissions stop every run reaches the state where all are done. */
  lemma {:induction false} RunsAreBounded(run: seq<State>, actions: seq<Action>)
    requires IsRun(run, actions) && run[0] == Initial(run[0].capacity) && run[0].capacity >= 1
    ensures |actions| <= Budget(Last(run), Last(run).children)
  {
    InitialInv(run[0].capacity);
    RunSpends(run, actions, |run| - 1);
  }

  /** A run that can go no further has finished every child and given every token back. */
  lemma {:induction false} StuckMeansDone(run: seq<State>, actions: seq<Action>)
    requires IsRun(run, actions) && run[0] == Initial(run[0].capacity) && run[0].capacity >= 1
    requires forall i :: 0 <= i < |Last(run).children| ==> !CanMove(Last(run), i)
    ensures AllDone(Last(run)) && NothingHeld(Last(run))
  {
    InitialInv(run[0].capacity);
    RunKeepsInv(run, actions, |run| - 1);
    if !AllDone(Last(run)) {
      var k := NoDeadlock(Last(run));
      assert false;
    }
    AllDoneReturnsEverything(run, actions);
  }
}
