/** Whole runs of the lifecycle coordinator (internal/feature/agent): admission, start, terminal
    store, cancellation, resumption, recovery, compaction and crashes in any order, with every append
    accepted or refused. What is asked of each state: would recovery rebuild the table? */
module LifecycleRuns {
  import opened Lifecycle
  import opened LifecycleCoordinator

  /** A journal entry; `rejected` only logs that the table refused the event after it was appended. */
  datatype Fact = Fact(event: Event, rejected: bool)

  function Events(journal: seq<Fact>): (events: seq<Event>)
    ensures |events| == |journal| && forall k :: 0 <= k < |journal| ==> events[k] == journal[k].event
  {
    seq(|journal|, k requires 0 <= k < |journal| => journal[k].event)
  }

  function Accepted(journal: seq<Fact>): seq<Event> {
    if journal == [] then []
    else Accepted(journal[..|journal| - 1]) + if journal[|journal| - 1].rejected then [] else [journal[|journal| - 1].event]
  }

  /** The goroutine of an admitted agent: before or after its start transition. */
  datatype Worker = Waiting | Working

  /** `base` is the table the stored snapshot installs; `resuming` are the records between the two
      locked regions of a Resume call. */
  datatype State = State(
    session: string, agents: Agents, workers: map<string, Worker>, resuming: set<string>,
    base: Agents, journal: seq<Fact>)

  datatype Action =
    | Admit(id: string, parent: string, profile: Profile, task: string, resumedFrom: string, at: nat, accepted: bool)
    | Start(id: string, at: nat, accepted: bool)
    | StoreTerminal(id: string, kind: Kind, at: nat, reason: string, accepted: bool)
    | Cancel(id: string, at: nat, accepted: bool)
    | RequestResume(id: string, at: nat, accepted: bool)
    | BindResume(id: string, child: string, at: nat, accepted: bool)
    | RollBackResume(id: string, at: nat, accepted: bool)
    | Interrupt(id: string, at: nat, accepted: bool)
    | InstallSnapshot
    | Compact
    | Crash

  // ---------- the steps ----------

  function Snapshot(agents: Agents): Agents {
    map id | id in agents :: ShortTask(agents[id])
  }

  predicate Recoverable(s: State) {
    Replay(s.base, s.session, Events(s.journal)).Ok?
  }

  predicate Enabled(s: State, a: Action) {
    match a
    case Admit(id, _, _, _, _, _, _) => !Blank(id) && id !in s.agents
    case Start(id, _, _) => id in s.agents && id in s.workers && s.workers[id] == Waiting && s.agents[id].state != Canceling
    case StoreTerminal(id, kind, _, _, _) =>
      && id in s.agents && id in s.workers
      && (kind == AgentFailed || kind == AgentCanceled || (kind == AgentCompleted && s.workers[id] == Working))
    case Cancel(id, _, _) => id in s.agents && !Terminal(s.agents[id].state)
    case RequestResume(id, _, _) => id in s.agents && s.agents[id].state == Interrupted
    case BindResume(id, child, _, _) => id in s.agents && id in s.resuming && child != ""
    case RollBackResume(id, _, _) => id in s.agents && id in s.resuming
    case Interrupt(id, _, _) => id in s.agents && !Terminal(s.agents[id].state) && id !in s.workers && id !in s.resuming
    case InstallSnapshot => true
    case Compact => true
    case Crash => Recoverable(s)
  }

  predicate Transitions(a: Action) {
    !a.Admit? && !a.InstallSnapshot? && !a.Compact? && !a.Crash?
  }

  function KindOf(a: Action): Kind
    requires Transitions(a)
  {
    match a
    case Start(_, _, _) => AgentStarted
    case StoreTerminal(_, kind, _, _, _) => kind
    case Cancel(_, _, _) => CancelRequested
    case RequestResume(_, _, _) => ResumeRequested
    case BindResume(_, _, _, _) => AgentResumed
    case RollBackResume(_, _, _) => AgentInterrupted
    case Interrupt(_, _, _) => AgentInterrupted
  }

  /** The event a step appends for an agent with this status. */
  function EventFor(status: Status, a: Action): Event
    requires Transitions(a)
  {
    match a
    case Start(_, at, _) => NextEvent(status, AgentStarted, at, "")
    case StoreTerminal(_, kind, at, reason, _) => NextEvent(status, kind, at, reason)
    case Cancel(_, at, _) => CancelEvent(status, at)
    case RequestResume(_, at, _) => NextEvent(status, ResumeRequested, at, "resume requested")
    case BindResume(_, child, at, _) => NextEvent(status, AgentResumed, at, "resumed as " + child).(resumedAs := child)
    case RollBackResume(_, at, _) => NextEvent(status, AgentInterrupted, at, "resume admission failed")
    case Interrupt(_, at, _) => NextEvent(status, AgentInterrupted, at, INTERRUPT_REASON)
  }

  /** Append first, then move the table. */
  function Append(s: State, e: Event): State {
    match ReplayOne(s.agents, s.session, e)
    case Ok(agents) => s.(agents := agents, journal := s.journal + [Fact(e, false)])
    case Err(_) => s.(journal := s.journal + [Fact(e, true)])
  }

  function Persisted(s: State, a: Action): State
    requires Transitions(a) && a.id in s.agents
  {
    if a.accepted then Append(s, EventFor(s.agents[a.id], a)) else s
  }

  function WorkersAfter(workers: map<string, Worker>, a: Action): map<string, Worker> {
    match a
    case Start(id, _, true) => workers[id := Working]
    case StoreTerminal(id, _, _, _, _) => workers - {id}
    case _ => workers
  }

  function ResumingAfter(resuming: set<string>, a: Action): set<string> {
    match a
    case RequestResume(id, _, true) => resuming + {id}
    case BindResume(id, _, _, _) => resuming - {id}
    case RollBackResume(id, _, _) => resuming - {id}
    case _ => resuming
  }

  function Transitioned(s: State, a: Action): State
    requires Transitions(a) && a.id in s.agents
  {
    Persisted(s, a).(workers := WorkersAfter(s.workers, a), resuming := ResumingAfter(s.resuming, a))
  }

  function Admitted(s: State, a: Action): State
    requires a.Admit?
  {
    if !a.accepted then s
    else Append(s, QueuedEvent(s.session, a.id, a.parent, a.profile, a.task, a.resumedFrom, a.at)).(workers := s.workers[a.id := Waiting])
  }

  /** Compaction stopped after installing the snapshot. */
  function Snapshotted(s: State): State {
    s.(base := Snapshot(s.agents))
  }

  function Compacted(s: State): State {
    s.(base := Snapshot(s.agents), journal := [])
  }

  /** A new process: every goroutine is gone and recovery replays the durable part. */
  function Crashed(s: State): State
    requires Recoverable(s)
  {
    s.(agents := Replay(s.base, s.session, Events(s.journal)).value, workers := map[], resuming := {})
  }

  function Apply(s: State, a: Action): State
    requires Enabled(s, a)
  {
    if Transitions(a) then Transitioned(s, a)
    else if a.Admit? then Admitted(s, a)
    else if a.InstallSnapshot? then Snapshotted(s)
    else if a.Compact? then Compacted(s)
    else Crashed(s)
  }

  // ---------- what the journal keeps ----------

  predicate InBase(base: Agents, e: Event) {
    e.agent in base && e.version <= base[e.agent].version
  }

  /** A rejected fact met the agent resuming, or the snapshot already represents it. */
  predicate Stray(session: string, base: Agents, before: seq<Fact>, e: Event) {
    var r := Replay(base, session, Accepted(before));
    && e.session == session && !Blank(e.agent) && r.Ok? && e.agent in r.value
    && (InBase(base, e) ||
        (r.value[e.agent].state == Resuming && e.kind == CancelRequested && e.version == r.value[e.agent].version + 1
         && r.value[e.agent].id == e.agent && r.value[e.agent].session == session))
  }

  /** The accepted facts rebuild the table over the snapshot, and every rejected one is a stray. */
  ghost predicate Ledger(session: string, base: Agents, journal: seq<Fact>, agents: Agents) {
    && Filed(base, session) && Filed(agents, session)
    && SameOutcome(Replay(base, session, Accepted(journal)), Ok(agents))
    && forall k :: 0 <= k < |journal| && journal[k].rejected ==> Stray(session, base, journal[..k], journal[k].event)
  }

  predicate Threads(s: State) {
    && (forall id <- s.workers :: id in s.agents &&
          (s.agents[id].state == Canceling || s.agents[id].state == if s.workers[id] == Waiting then Queued else Running))
    && (forall id <- s.resuming :: id in s.agents && s.agents[id].state == Resuming)
  }

  ghost predicate Inv(s: State) {
    Ledger(s.session, s.base, s.journal, s.agents) && Threads(s)
  }

  lemma {:induction false} Appended(journal: seq<Fact>, f: Fact)
    ensures Accepted(journal + [f]) == Accepted(journal) + if f.rejected then [] else [f.event]
    ensures Events(journal + [f]) == Events(journal) + [f.event]
  {
    assert (journal + [f])[..|journal|] == journal;
  }

  lemma {:induction false} StraysStay(session: string, base: Agents, journal: seq<Fact>, f: Fact)
    requires forall k :: 0 <= k < |journal| && journal[k].rejected ==> Stray(session, base, journal[..k], journal[k].event)
    requires f.rejected ==> Stray(session, base, journal, f.event)
    ensures var longer := journal + [f];
            forall k :: 0 <= k < |longer| && longer[k].rejected ==> Stray(session, base, longer[..k], longer[k].event)
  {
    var longer := journal + [f];
    forall k | 0 <= k < |longer| && longer[k].rejected ensures Stray(session, base, longer[..k], longer[k].event) {
      assert longer[..k] == if k < |journal| then journal[..k] else journal;
    }
  }

  lemma {:induction false} ReplayLast(agents: Agents, session: string, events: seq<Event>, e: Event)
    requires Replay(agents, session, events).Ok?
    ensures Replay(agents, session, events + [e]) == ReplayOne(Replay(agents, session, events).value, session, e)
  {
    ReplayConcat(agents, session, events, [e]);
    var mid := Replay(agents, session, events).value;
    assert [e][1..] == [];
    assert Replay(mid, session, [e]) == match ReplayOne(mid, session, e) case Err(x) => Err(x) case Ok(next) => Replay(next, session, []);
  }

  lemma {:induction false} AcceptedKeepsLedger(session: string, base: Agents, journal: seq<Fact>, agents: Agents, e: Event)
    requires Ledger(session, base, journal, agents) && ReplayOne(agents, session, e).Ok?
    ensures Ledger(session, base, journal + [Fact(e, false)], ReplayOne(agents, session, e).value)
  {
    Appended(journal, Fact(e, false));
    StraysStay(session, base, journal, Fact(e, false));
    ReplayLast(base, session, Accepted(journal), e);
    ReplayOneSame(Replay(base, session, Accepted(journal)).value, agents, session, e);
    ReplayOneFiled(agents, session, e);
  }

  lemma {:induction false} RejectedKeepsLedger(session: string, base: Agents, journal: seq<Fact>, agents: Agents, id: string, at: nat)
    requires Ledger(session, base, journal, agents) && id in agents && agents[id].state == Resuming
    ensures Ledger(session, base, journal + [Fact(CancelEvent(agents[id], at), true)], agents)
  {
    var f := Fact(CancelEvent(agents[id], at), true);
    var rebuilt := Replay(base, session, Accepted(journal)).value;
    assert SameStatus(rebuilt[id], agents[id]);
    Appended(journal, f);
    assert Accepted(journal) + [] == Accepted(journal);
    StraysStay(session, base, journal, f);
  }

  /** Replay that leaves an agent's version alone leaves the agent alone. */
  lemma {:induction false} SameVersionSameStatus(agents: Agents, session: string, events: seq<Event>, id: string)
    requires Replay(agents, session, events).Ok? && id in agents && Filed(agents, session)
    ensures var later := Replay(agents, session, events).value;
            id in later && later[id].version >= agents[id].version && (later[id].version == agents[id].version ==> later[id] == agents[id])
    decreases |events|
  {
    if events == [] {
    } else {
      ReplayOneFiled(agents, session, events[0]);
      SameVersionSameStatus(ReplayOne(agents, session, events[0]).value, session, events[1..], id);
    }
  }

  // ---------- when recovery works ----------

  predicate AllInBase(base: Agents, journal: seq<Fact>) {
    forall k :: 0 <= k < |journal| && journal[k].rejected ==> InBase(base, journal[k].event)
  }

  /** Rejected facts a table represents are skipped: replay sees only the accepted ones. */
  lemma {:induction false} RepresentedStraysAreSkipped(session: string, base: Agents, journal: seq<Fact>)
    requires AllInBase(base, journal)
    ensures Replay(base, session, Events(journal)) == Replay(base, session, Accepted(journal))
  {
    if journal == [] {
    } else {
      var n := |journal| - 1;
      var earlier, f := journal[..n], journal[n];
      assert journal == earlier + [f];
      Appended(earlier, f);
      RepresentedStraysAreSkipped(session, base, earlier);
      ReplayConcat(base, session, Events(earlier), [f.event]);
      ReplayConcat(base, session, Accepted(earlier), if f.rejected then [] else [f.event]);
      var r := Replay(base, session, Events(earlier));
      if r.Ok? && f.rejected {
        ReplayLast(base, session, Events(earlier), f.event);
        ReplayRepresents(base, session, Events(earlier), f.event);
      }
    }
  }

  /** The first rejected fact the snapshot does not represent stops replay. */
  lemma {:induction false} UnrepresentedStrayStops(session: string, base: Agents, journal: seq<Fact>, k: nat)
    requires k < |journal| && journal[k].rejected && !InBase(base, journal[k].event)
    requires AllInBase(base, journal[..k]) && Stray(session, base, journal[..k], journal[k].event)
    ensures Replay(base, session, Events(journal)) == Err(InvalidTransition(Resuming, Canceling))
  {
    hide AllInBase, InBase, ReplayOne, Accepted;
    var before, e := journal[..k], journal[k].event;
    RepresentedStraysAreSkipped(session, base, before);
    var at := Replay(base, session, Events(before)).value;
    ResumingRejectsCancel(at, session, e);
    ReplayLast(base, session, Events(before), e);
    assert Events(journal) == (Events(before) + [e]) + Events(journal[k + 1..]);
    ReplayConcat(base, session, Events(before) + [e], Events(journal[k + 1..]));
  }

  lemma {:induction false} ResumingRejectsCancel(agents: Agents, session: string, e: Event)
    requires e.session == session && !Blank(e.agent) && e.agent in agents && agents[e.agent].state == Resuming
    requires e.kind == CancelRequested && e.version == agents[e.agent].version + 1
    requires agents[e.agent].id == e.agent && agents[e.agent].session == session
    ensures ReplayOne(agents, session, e) == Err(InvalidTransition(Resuming, Canceling))
  {
  }

  lemma {:induction false} FirstUnrepresented(base: Agents, journal: seq<Fact>) returns (k: nat)
    requires !AllInBase(base, journal)
    ensures k < |journal| && journal[k].rejected && !InBase(base, journal[k].event) && AllInBase(base, journal[..k])
  {
    var n := |journal| - 1;
    if AllInBase(base, journal[..n]) {
      k := n;
    } else {
      k := FirstUnrepresented(base, journal[..n]);
      assert journal[..n][..k] == journal[..k];
    }
  }

  /** Recovery rebuilds the table if and only if the stored snapshot represents every rejected fact
      still in the journal; otherwise it stops with the edge error. */
  lemma {:induction false} RecoverableIffStraysRepresented(s: State)
    requires Inv(s)
    ensures Recoverable(s) <==> AllInBase(s.base, s.journal)
    ensures Recoverable(s) ==> Same(Replay(s.base, s.session, Events(s.journal)).value, s.agents)
    ensures !Recoverable(s) ==> Replay(s.base, s.session, Events(s.journal)) == Err(InvalidTransition(Resuming, Canceling))
  {
    if AllInBase(s.base, s.journal) {
      RepresentedStraysAreSkipped(s.session, s.base, s.journal);
    } else {
      var k := FirstUnrepresented(s.base, s.journal);
      UnrepresentedStrayStops(s.session, s.base, s.journal, k);
    }
  }

  // ---------- snapshots ----------

  lemma {:induction false} SnapshotIsSame(session: string, agents: Agents)
    requires Filed(agents, session)
    ensures Same(Snapshot(agents), agents) && Filed(Snapshot(agents), session)
  {
  }

  lemma {:induction false} SnapshotRepresentsAlike(agents: Agents, journal: seq<Fact>)
    ensures AllInBase(Snapshot(agents), journal) <==> AllInBase(agents, journal)
  {
    forall k | 0 <= k < |journal| ensures InBase(Snapshot(agents), journal[k].event) <==> InBase(agents, journal[k].event) {
    }
  }

  lemma {:induction false} AcceptedPrefix(journal: seq<Fact>, k: nat) returns (rest: seq<Event>)
    requires k <= |journal|
    ensures Accepted(journal) == Accepted(journal[..k]) + rest
    decreases |journal|
  {
    if k == |journal| {
      assert journal[..k] == journal;
      rest := [];
    } else {
      var n := |journal| - 1;
      assert journal[..n][..k] == journal[..k];
      var shorter := AcceptedPrefix(journal[..n], k);
      rest := shorter + if journal[n].rejected then [] else [journal[n].event];
    }
  }

  /** A new snapshot represents every accepted fact, so replay over it changes nothing. */
  lemma {:induction false} SnapshotSkipsAccepted(session: string, base: Agents, journal: seq<Fact>, agents: Agents, events: seq<Event>)
    requires Ledger(session, base, journal, agents)
    requires forall e <- events :: e in Accepted(journal)
    ensures Replay(Snapshot(agents), session, events) == Ok(Snapshot(agents))
  {
    var rebuilt := Replay(base, session, Accepted(journal)).value;
    forall e <- events ensures Represents(Snapshot(agents), session, e) {
      ReplayRepresents(base, session, Accepted(journal), e);
      if e.session == session && !Blank(e.agent) { assert SameStatus(rebuilt[e.agent], agents[e.agent]); }
    }
    RepresentedFactsAreSkipped(Snapshot(agents), session, events);
  }

  /** A rejected fact is represented by a new snapshot unless its agent has not moved since. */
  lemma {:induction false} StrayMeetsSnapshot(session: string, base: Agents, journal: seq<Fact>, agents: Agents, k: nat)
    requires Ledger(session, base, journal, agents) && k < |journal| && journal[k].rejected
    ensures Stray(session, Snapshot(agents), journal[..k], journal[k].event)
  {
    var before, e := journal[..k], journal[k].event;
    assert Stray(session, base, before, e);
    var rest := AcceptedPrefix(journal, k);
    SnapshotSkipsAccepted(session, base, journal, agents, Accepted(before));
    SnapshotIsSame(session, agents);
    var at, rebuilt := Replay(base, session, Accepted(before)).value, Replay(base, session, Accepted(journal)).value;
    ReplayConcat(base, session, Accepted(before), rest);
    ReplayFiled(base, session, Accepted(before));
    SameVersionSameStatus(at, session, rest, e.agent);
    assert SameStatus(rebuilt[e.agent], agents[e.agent]);
    if InBase(base, e) { SameVersionSameStatus(base, session, Accepted(journal), e.agent); }
  }

  lemma {:induction false} SnapshotKeepsLedger(session: string, base: Agents, journal: seq<Fact>, agents: Agents)
    requires Ledger(session, base, journal, agents)
    ensures Ledger(session, Snapshot(agents), journal, agents)
  {
    SnapshotIsSame(session, agents);
    SnapshotSkipsAccepted(session, base, journal, agents, Accepted(journal));
    forall k | 0 <= k < |journal| && journal[k].rejected ensures Stray(session, Snapshot(agents), journal[..k], journal[k].event) {
      StrayMeetsSnapshot(session, base, journal, agents, k);
    }
  }

  // ---------- every step ----------

  lemma {:induction false} EventShape(status: Status, a: Action)
    requires Transitions(a)
    ensures var e := EventFor(status, a);
            e.kind == KindOf(a) && e.version == status.version + 1 && e.agent == status.id && e.session == status.session
  {
  }

  /** The next event of a known agent is accepted exactly on a valid edge, and moves that agent alone. */
  lemma {:induction false} ReplayOnEdge(agents: Agents, session: string, id: string, e: Event)
    requires Filed(agents, session) && id in agents && TargetState(e.kind).Ok?
    requires e.version == agents[id].version + 1 && e.agent == id && e.session == session
    ensures var target := TargetState(e.kind).value;
            match ReplayOne(agents, session, e)
            case Err(_) => !ValidTransition(agents[id].state, target)
            case Ok(next) => ValidTransition(agents[id].state, target) && id in next && next[id].state == target && next == agents[id := next[id]]
  {
    assert !Blank(e.agent);
  }

  predicate CancelsResuming(s: State, a: Action) {
    a.Cancel? && a.accepted && a.id in s.agents && s.agents[a.id].state == Resuming
  }

  /** The guards and the threads leave only one step without an edge: cancelling a resuming record. */
  lemma {:induction false} OnlyCancelLacksAnEdge(s: State, a: Action)
    requires Threads(s) && Enabled(s, a) && Transitions(a) && a.accepted && s.agents[a.id].state != NoState
    ensures TargetState(KindOf(a)).Ok?
    ensures ValidTransition(s.agents[a.id].state, TargetState(KindOf(a)).value) <==> !CancelsResuming(s, a)
  {
  }

  /** What appending does: the agent takes the edge, or, for a cancelled resumption alone, the event
      stays behind rejected. */
  lemma {:induction false} AppendMoves(s: State, a: Action) returns (e: Event)
    requires Inv(s) && Enabled(s, a) && Transitions(a) && a.accepted
    ensures e == EventFor(s.agents[a.id], a) && e.agent == a.id && e.version == s.agents[a.id].version + 1
    ensures var t := Append(s, e);
            && t.journal == s.journal + [Fact(e, CancelsResuming(s, a))] && t.base == s.base && t.session == s.session
            && ReplayOne(s.agents, s.session, e).Err? == CancelsResuming(s, a)
            && (CancelsResuming(s, a) ==> t.agents == s.agents)
            && (!CancelsResuming(s, a) ==>
                  && ReplayOne(s.agents, s.session, e) == Ok(t.agents)
                  && a.id in t.agents && t.agents == s.agents[a.id := t.agents[a.id]]
                  && TargetState(KindOf(a)) == Ok(t.agents[a.id].state))
  {
    e := EventFor(s.agents[a.id], a);
    EventShape(s.agents[a.id], a);
    OnlyCancelLacksAnEdge(s, a);
    ReplayOnEdge(s.agents, s.session, a.id, e);
  }

  lemma {:induction false} AppendKeepsLedger(s: State, a: Action)
    requires Inv(s) && Enabled(s, a) && Transitions(a) && a.accepted
    ensures var t := Append(s, EventFor(s.agents[a.id], a)); Ledger(t.session, t.base, t.journal, t.agents)
  {
    var e := AppendMoves(s, a);
    if CancelsResuming(s, a) {
      RejectedKeepsLedger(s.session, s.base, s.journal, s.agents, a.id, a.at);
    } else {
      AcceptedKeepsLedger(s.session, s.base, s.journal, s.agents, e);
    }
  }

  /** The threads after an agent took the edge of a step, or after the step changed no table. */
  lemma {:induction false} EdgeKeepsThreads(s: State, a: Action, agents: Agents)
    requires Threads(s) && Enabled(s, a) && Transitions(a)
    requires if a.accepted && !CancelsResuming(s, a)
             then a.id in agents && agents == s.agents[a.id := agents[a.id]] && TargetState(KindOf(a)) == Ok(agents[a.id].state)
             else agents == s.agents
    ensures Threads(s.(agents := agents, workers := WorkersAfter(s.workers, a), resuming := ResumingAfter(s.resuming, a)))
  {
  }

  lemma {:induction false} TransitionKeepsThreads(s: State, a: Action)
    requires Inv(s) && Enabled(s, a) && Transitions(a)
    ensures Threads(Transitioned(s, a))
  {
    hide Ledger, EventFor, ReplayOne, CancelsResuming;
    if a.accepted { var e := AppendMoves(s, a); }
    EdgeKeepsThreads(s, a, Transitioned(s, a).agents);
  }

  lemma {:induction false} TransitionKeepsInv(s: State, a: Action)
    requires Inv(s) && Enabled(s, a) && Transitions(a)
    ensures Inv(Transitioned(s, a))
  {
    TransitionKeepsThreads(s, a);
    if a.accepted { AppendKeepsLedger(s, a); }
  }

  lemma {:induction false} QueuedAdds(s: State, e: Event)
    requires e.kind == AgentQueued && e.version == 1 && e.session == s.session && !Blank(e.agent) && e.agent !in s.agents
    ensures var r := ReplayOne(s.agents, s.session, e);
            r.Ok? && e.agent in r.value && r.value == s.agents[e.agent := r.value[e.agent]] && r.value[e.agent].state == Queued
  {
  }

  lemma {:induction false} NewcomerKeepsThreads(s: State, id: string, agents: Agents)
    requires Threads(s) && id !in s.agents && id in agents && agents == s.agents[id := agents[id]] && agents[id].state == Queued
    ensures Threads(s.(agents := agents, workers := s.workers[id := Waiting]))
  {
  }

  lemma {:induction false} AdmitKeepsInv(s: State, a: Action)
    requires Inv(s) && Enabled(s, a) && a.Admit?
    ensures Inv(Admitted(s, a))
  {
    if a.accepted {
      var e := QueuedEvent(s.session, a.id, a.parent, a.profile, a.task, a.resumedFrom, a.at);
      QueuedAdds(s, e);
      AcceptedKeepsLedger(s.session, s.base, s.journal, s.agents, e);
      NewcomerKeepsThreads(s, a.id, ReplayOne(s.agents, s.session, e).value);
    }
  }

  lemma {:induction false} SnapshotKeepsInv(s: State)
    requires Inv(s)
    ensures Inv(Snapshotted(s))
  {
    SnapshotKeepsLedger(s.session, s.base, s.journal, s.agents);
  }

  lemma {:induction false} CompactKeepsInv(s: State)
    requires Inv(s)
    ensures Inv(Compacted(s))
  {
    SnapshotIsSame(s.session, s.agents);
  }

  lemma {:induction false} CrashKeepsInv(s: State)
    requires Inv(s) && Recoverable(s)
    ensures Inv(Crashed(s))
  {
    RecoverableIffStraysRepresented(s);
    RepresentedStraysAreSkipped(s.session, s.base, s.journal);
    ReplayFiled(s.base, s.session, Events(s.journal));
  }

  lemma {:induction false} StepKeepsInv(s: State, a: Action)
    requires Inv(s) && Enabled(s, a)
    ensures Inv(Apply(s, a))
  {
    if Transitions(a) { TransitionKeepsInv(s, a); }
    else if a.Admit? { AdmitKeepsInv(s, a); }
    else if a.InstallSnapshot? { SnapshotKeepsInv(s); }
    else if a.Compact? { CompactKeepsInv(s); }
    else { CrashKeepsInv(s); }
  }

  // ---------- runs ----------

  predicate Initial(s: State) {
    s.agents == map[] && s.workers == map[] && s.resuming == {} && s.base == map[] && s.journal == []
  }

  ghost predicate IsRun(run: seq<State>, actions: seq<Action>) {
    && |run| == |actions| + 1 && Initial(run[0])
    && forall i :: 0 <= i < |actions| ==> Enabled(run[i], actions[i]) && run[i + 1] == Apply(run[i], actions[i])
  }

  lemma {:induction false} RunKeepsInv(run: seq<State>, actions: seq<Action>, i: nat)
    requires IsRun(run, actions) && i < |run|
    ensures Inv(run[i])
  {
    if i == 0 {
    } else {
      RunKeepsInv(run, actions, i - 1);
      StepKeepsInv(run[i - 1], actions[i - 1]);
    }
  }

  predicate NoRejects(journal: seq<Fact>) {
    forall k :: 0 <= k < |journal| ==> !journal[k].rejected
  }

  lemma {:induction false} RejectsGrow(journal: seq<Fact>, f: Fact)
    requires NoRejects(journal)
    ensures NoRejects(journal + [f]) <==> !f.rejected
  {
    assert (journal + [f])[|journal|] == f;
  }

  lemma {:induction false} TransitionRejects(s: State, a: Action)
    requires Inv(s) && Enabled(s, a) && Transitions(a) && NoRejects(s.journal)
    ensures NoRejects(Transitioned(s, a).journal) <==> !CancelsResuming(s, a)
  {
    if a.accepted {
      var e := AppendMoves(s, a);
      RejectsGrow(s.journal, Fact(e, CancelsResuming(s, a)));
    }
  }

  lemma {:induction false} AdmitRejects(s: State, a: Action)
    requires Enabled(s, a) && a.Admit? && NoRejects(s.journal)
    ensures NoRejects(Admitted(s, a).journal)
  {
    if a.accepted {
      var e := QueuedEvent(s.session, a.id, a.parent, a.profile, a.task, a.resumedFrom, a.at);
      QueuedAdds(s, e);
      RejectsGrow(s.journal, Fact(e, false));
    }
  }

  lemma {:induction false} StepRejects(s: State, a: Action)
    requires Inv(s) && Enabled(s, a) && NoRejects(s.journal)
    ensures NoRejects(Apply(s, a).journal) <==> !CancelsResuming(s, a)
  {
    if Transitions(a) { TransitionRejects(s, a); }
    else if a.Admit? { AdmitRejects(s, a); }
  }

  /** A run none of whose cancels hits a resuming record can crash at any moment: recovery rebuilds
      the table it had. */
  lemma {:induction false} RunStaysRecoverable(run: seq<State>, actions: seq<Action>, i: nat)
    requires IsRun(run, actions) && i < |run|
    requires forall j :: 0 <= j < i ==> !CancelsResuming(run[j], actions[j])
    ensures NoRejects(run[i].journal)
    ensures Recoverable(run[i]) && Same(Replay(run[i].base, run[i].session, Events(run[i].journal)).value, run[i].agents)
  {
    if i == 0 {
    } else {
      RunStaysRecoverable(run, actions, i - 1);
      RunKeepsInv(run, actions, i - 1);
      StepRejects(run[i - 1], actions[i - 1]);
    }
    RunKeepsInv(run, actions, i);
    RecoverableIffStraysRepresented(run[i]);
  }

  /** At every moment of every run, recovery works if and only if the stored snapshot represents every
      rejected event still in the journal; when it works it gives back the table of that moment. */
  lemma {:induction false} RunRecoverability(run: seq<State>, actions: seq<Action>, i: nat)
    requires IsRun(run, actions) && i < |run|
    ensures Recoverable(run[i]) <==> AllInBase(run[i].base, run[i].journal)
    ensures Recoverable(run[i]) ==> Same(Replay(run[i].base, run[i].session, Events(run[i].journal)).value, run[i].agents)
  {
    RunKeepsInv(run, actions, i);
    RecoverableIffStraysRepresented(run[i]);
  }

  /** An accepted cancel of a resuming record leaves the table alone and makes recovery impossible. */
  lemma {:induction false} CancelOfResumingHarms(s: State, a: Action)
    requires Inv(s) && Enabled(s, a) && CancelsResuming(s, a)
    ensures Transitioned(s, a).agents == s.agents && !Recoverable(Transitioned(s, a))
  {
    var e := AppendMoves(s, a);
    var harmed := Transitioned(s, a);
    TransitionKeepsInv(s, a);
    assert harmed.journal[|s.journal|] == Fact(e, true);
    StrayIsUnrepresented(harmed, |s.journal|);
  }

  /** While its agent has not moved past it, a rejected fact keeps the state unrecoverable. */
  lemma {:induction false} StrayIsUnrepresented(s: State, k: nat)
    requires Inv(s) && k < |s.journal| && s.journal[k].rejected && !InBase(s.agents, s.journal[k].event)
    ensures !Recoverable(s)
  {
    RecoverableIffStraysRepresented(s);
    if s.journal[k].event.agent in s.base { BaseIsNotAhead(s, s.journal[k].event.agent); }
  }

  /** A completed compaction makes any state recoverable again. One that stops after installing the
      snapshot does so if and only if the agent of every rejected fact has moved on since. */
  lemma {:induction false} CompactionHeals(s: State)
    requires Inv(s)
    ensures Recoverable(Compacted(s))
    ensures Recoverable(Snapshotted(s)) <==> AllInBase(s.agents, s.journal)
  {
    CompactKeepsInv(s);
    RecoverableIffStraysRepresented(Compacted(s));
    SnapshotKeepsInv(s);
    RecoverableIffStraysRepresented(Snapshotted(s));
    SnapshotRepresentsAlike(s.agents, s.journal);
  }

  /** The snapshot is never ahead of the table. */
  lemma {:induction false} BaseIsNotAhead(s: State, id: string)
    requires Inv(s) && id in s.base
    ensures id in s.agents && s.base[id].version <= s.agents[id].version
  {
    var rebuilt := Replay(s.base, s.session, Accepted(s.journal)).value;
    SameVersionSameStatus(s.base, s.session, Accepted(s.journal), id);
    assert SameStatus(rebuilt[id], s.agents[id]);
  }
}
