/** Subagent lifecycle facts (internal/feature/agent: transition, domain_event, recovery):
    the status projection, the events that move it, and replay of a journal over a snapshot. */
module Lifecycle {
  import Text

  /** An id that is empty once trimmed. */
  predicate Blank(id: string) {
    forall c <- id :: Text.IsSpace(c)
  }

  datatype Result<+T> = Ok(value: T) | Err(error: Error)

  datatype Error =
    | VersionConflict
    | AgentMismatch
    | SessionMismatch
    | UnknownKind
    | InvalidTransition(from: AgentState, to: AgentState)
    | NotFound
    | AlreadyExists
    | NotResumable
    | StoreRefused

  /** `NoState` is the zero status of an agent no event has mentioned yet. */
  datatype AgentState =
    | NoState | Queued | Running | Canceling | Completed | Failed | Canceled | Interrupted | Resuming | Resumed

  predicate Terminal(s: AgentState) {
    s == Completed || s == Failed || s == Canceled || s == Interrupted || s == Resumed
  }

  /** Identity fields copied unchanged from the queued event. */
  datatype Profile = Profile(profile: string, provider: string, model: string, taskID: string, dependsOn: seq<string>, optional: bool)

  /** Times are logical; zero is the unset time. */
  datatype Status = Status(
    session: string, id: string, parent: string, profile: Profile, task: string,
    state: AgentState, version: nat,
    startTime: nat, startedAt: nat, finishedAt: nat, reason: string,
    resumedFrom: string, resumedAs: string)

  const NO_PROFILE := Profile("", "", "", "", [], false)
  const NEW_STATUS := Status("", "", "", NO_PROFILE, "", NoState, 0, 0, 0, 0, "", "", "")

  datatype Kind =
    | AgentQueued | AgentStarted | CancelRequested | AgentCompleted | AgentFailed | AgentCanceled
    | AgentInterrupted | ResumeRequested | AgentResumed | OtherKind(name: string)

  datatype Event = Event(
    kind: Kind, version: nat, at: nat, session: string, parent: string, agent: string,
    profile: Profile, task: string, reason: string, resumedFrom: string, resumedAs: string)

  function TargetState(k: Kind): Result<AgentState> {
    match k
    case AgentQueued => Ok(Queued)
    case AgentStarted => Ok(Running)
    case CancelRequested => Ok(Canceling)
    case AgentCompleted => Ok(Completed)
    case AgentFailed => Ok(Failed)
    case AgentCanceled => Ok(Canceled)
    case AgentInterrupted => Ok(Interrupted)
    case ResumeRequested => Ok(Resuming)
    case AgentResumed => Ok(Resumed)
    case OtherKind(_) => Err(UnknownKind)
  }

  predicate ValidTransition(from: AgentState, to: AgentState) {
    from == to ||
    match from
    case Queued => to == Running || to == Canceling || to == Canceled || to == Failed || to == Interrupted
    case Running => to == Canceling || to == Completed || to == Failed || to == Canceled || to == Interrupted
    case Canceling => to == Completed || to == Failed || to == Canceled || to == Interrupted
    case Interrupted => to == Resuming
    case Resuming => to == Resumed || to == Interrupted
    case _ => false
  }

  function Transition(s: Status, to: AgentState, at: nat, reason: string): Result<Status> {
    if !ValidTransition(s.state, to) then Err(InvalidTransition(s.state, to))
    else
      var moved := s.(state := to, reason := reason);
      Ok(if to == Running then (if s.startedAt == 0 then moved.(startedAt := at) else moved)
         else if Terminal(to) then moved.(finishedAt := at)
         else moved)
  }

  function NextEvent(s: Status, kind: Kind, at: nat, reason: string): Event {
    Event(kind, s.version + 1, at, s.session, s.parent, s.id, s.profile, s.task, reason, s.resumedFrom, s.resumedAs)
  }

  function Link(s: Status, e: Event): Status {
    s.(version := e.version,
       resumedFrom := if e.resumedFrom != "" then e.resumedFrom else s.resumedFrom,
       resumedAs := if e.resumedAs != "" then e.resumedAs else s.resumedAs)
  }

  function ApplyEvent(s: Status, e: Event): Result<Status> {
    if e.version == 0 || e.version != s.version + 1 then Err(VersionConflict)
    else if s.id != "" && s.id != e.agent then Err(AgentMismatch)
    else if s.session != "" && s.session != e.session then Err(SessionMismatch)
    else match TargetState(e.kind)
      case Err(x) => Err(x)
      case Ok(target) =>
        if s.state == NoState then
          if target != Queued then Err(InvalidTransition(s.state, target))
          else Ok(Link(Status(e.session, e.agent, e.parent, e.profile, e.task, Queued, 0, e.at, 0, 0, "", e.resumedFrom, ""), e))
        else match Transition(s, target, e.at, e.reason)
          case Err(x) => Err(x)
          case Ok(moved) => Ok(Link(moved, e))
  }

  type Agents = map<string, Status>

  // ---------- replay ----------

  /** One journal fact met during recovery: create, skip as already represented, or apply. */
  function ReplayOne(agents: Agents, session: string, e: Event): Result<Agents> {
    if e.session != session || Blank(e.agent) then Ok(agents)
    else if e.agent !in agents then
      match ApplyEvent(NEW_STATUS, e)
      case Err(x) => Err(x)
      case Ok(s) => Ok(agents[s.id := s])
    else if e.version <= agents[e.agent].version then Ok(agents)
    else
      match ApplyEvent(agents[e.agent], e)
      case Err(x) => Err(x)
      case Ok(s) => Ok(agents[e.agent := s])
  }

  function Replay(agents: Agents, session: string, events: seq<Event>): Result<Agents>
    decreases |events|
  {
    if events == [] then Ok(agents)
    else match ReplayOne(agents, session, events[0])
      case Err(x) => Err(x)
      case Ok(next) => Replay(next, session, events[1..])
  }

  /** Agents filed under their own id and session. */
  predicate Filed(agents: Agents, session: string) {
    forall id <- agents :: !Blank(id) && agents[id].id == id && agents[id].session == session && agents[id].state != NoState && agents[id].version >= 1
  }

  lemma {:induction false} ReplayOneFiled(agents: Agents, session: string, e: Event)
    requires Filed(agents, session)
    ensures ReplayOne(agents, session, e).Ok? ==> Filed(ReplayOne(agents, session, e).value, session)
  {
  }

  lemma {:induction false} ReplayFiled(agents: Agents, session: string, events: seq<Event>)
    requires Filed(agents, session)
    ensures Replay(agents, session, events).Ok? ==> Filed(Replay(agents, session, events).value, session)
    decreases |events|
  {
    if events == [] {
    } else {
      ReplayOneFiled(agents, session, events[0]);
      var r := ReplayOne(agents, session, events[0]);
      if r.Ok? { ReplayFiled(r.value, session, events[1..]); }
    }
  }

  lemma {:induction false} ReplayConcat(agents: Agents, session: string, a: seq<Event>, b: seq<Event>)
    ensures Replay(agents, session, a + b) ==
            match Replay(agents, session, a) case Err(x) => Err(x) case Ok(mid) => Replay(mid, session, b)
    decreases |a|
  {
    if a == [] {
      assert a + b == b;
    } else {
      assert (a + b)[1..] == a[1..] + b;
      var r := ReplayOne(agents, session, a[0]);
      if r.Ok? { ReplayConcat(r.value, session, a[1..], b); }
    }
  }

  // ---------- facts a state already represents ----------

  predicate Represents(agents: Agents, session: string, e: Event) {
    e.session == session && !Blank(e.agent) ==> e.agent in agents && e.version <= agents[e.agent].version
  }

  /** Replay never forgets an agent and never lowers a version. */
  lemma {:induction false} ReplayOneGrows(agents: Agents, session: string, e: Event, fact: Event)
    requires ReplayOne(agents, session, e).Ok?
    ensures Represents(ReplayOne(agents, session, e).value, session, e)
    ensures Represents(agents, session, fact) ==> Represents(ReplayOne(agents, session, e).value, session, fact)
  {
  }

  lemma {:induction false} ReplayRepresents(agents: Agents, session: string, events: seq<Event>, fact: Event)
    requires Replay(agents, session, events).Ok?
    requires Represents(agents, session, fact) || fact in events
    ensures Represents(Replay(agents, session, events).value, session, fact)
    decreases |events|
  {
    if events == [] {
    } else {
      ReplayOneGrows(agents, session, events[0], fact);
      ReplayRepresents(ReplayOne(agents, session, events[0]).value, session, events[1..], fact);
    }
  }

  /** Facts already represented are skipped one by one. */
  lemma {:induction false} RepresentedFactsAreSkipped(agents: Agents, session: string, events: seq<Event>)
    requires forall e <- events :: Represents(agents, session, e)
    ensures Replay(agents, session, events) == Ok(agents)
    decreases |events|
  {
    if events == [] {
    } else {
      assert events[0] in events;
      RepresentedFactsAreSkipped(agents, session, events[1..]);
    }
  }

  // ---------- equality up to the truncated task text ----------

  predicate SameStatus(a: Status, b: Status) {
    a.(task := "") == b.(task := "")
  }

  /** Snapshots shorten task text; every other field of every agent is kept. */
  predicate Same(a: Agents, b: Agents) {
    a.Keys == b.Keys && forall id <- a :: SameStatus(a[id], b[id])
  }

  predicate SameOutcome(a: Result<Agents>, b: Result<Agents>) {
    match (a, b)
    case (Ok(x), Ok(y)) => Same(x, y)
    case (Err(x), Err(y)) => x == y
    case _ => false
  }

  lemma {:induction false} ApplySame(a: Status, b: Status, e: Event)
    requires SameStatus(a, b)
    ensures match (ApplyEvent(a, e), ApplyEvent(b, e))
            case (Ok(x), Ok(y)) => SameStatus(x, y)
            case (Err(x), Err(y)) => x == y
            case _ => false
  {
  }

  lemma {:induction false} ReplayOneSame(a: Agents, b: Agents, session: string, e: Event)
    requires Same(a, b)
    ensures SameOutcome(ReplayOne(a, session, e), ReplayOne(b, session, e))
  {
    if e.agent in a {
      assert SameStatus(a[e.agent], b[e.agent]);
      ApplySame(a[e.agent], b[e.agent], e);
    }
  }

  lemma {:induction false} ReplaySame(a: Agents, b: Agents, session: string, events: seq<Event>)
    requires Same(a, b)
    ensures SameOutcome(Replay(a, session, events), Replay(b, session, events))
    decreases |events|
  {
    if events == [] {
    } else {
      ReplayOneSame(a, b, session, events[0]);
      var x, y := ReplayOne(a, session, events[0]), ReplayOne(b, session, events[0]);
      if x.Ok? { ReplaySame(x.value, y.value, session, events[1..]); }
    }
  }

  /** The projection of a whole history. */
  function HistoryState(session: string, history: seq<Event>): Result<Agents> {
    Replay(map[], session, history)
  }

  /** Replaying any journal suffix that starts no later than the snapshot was taken, over that
      snapshot, rebuilds the state of the whole history: the duplicated facts are skipped. */
  lemma {:induction false} SnapshotPlusSuffixRebuilds(session: string, history: seq<Event>, taken: nat, from: nat, snapshot: Agents)
    requires from <= taken <= |history|
    requires HistoryState(session, history[..taken]).Ok?
    requires Same(snapshot, HistoryState(session, history[..taken]).value)
    ensures SameOutcome(Replay(snapshot, session, history[from..]), HistoryState(session, history))
  {
    var at := HistoryState(session, history[..taken]).value;
    var repeated, later := history[from..taken], history[taken..];
    assert history == history[..taken] + later;
    assert history[from..] == repeated + later;
    ReplayConcat(map[], session, history[..taken], later);
    ReplayConcat(at, session, repeated, later);
    forall e <- repeated ensures Represents(at, session, e) {
      assert e in history[..taken];
      ReplayRepresents(map[], session, history[..taken], e);
    }
    RepresentedFactsAreSkipped(at, session, repeated);
    ReplaySame(snapshot, at, session, history[from..]);
  }

  /** An event built from the current status is accepted exactly on a valid edge. */
  lemma {:induction false} NextEventAppliesOnValidEdges(s: Status, kind: Kind, at: nat, reason: string)
    requires s.state != NoState && s.id != ""
    ensures ApplyEvent(s, NextEvent(s, kind, at, reason)).Ok? <==>
            TargetState(kind).Ok? && ValidTransition(s.state, TargetState(kind).value)
  {
  }

  /** What appending one event for a known agent does to the projection of the history. */
  lemma {:induction false} HistoryAppend(session: string, history: seq<Event>, agents: Agents, e: Event)
    requires HistoryState(session, history).Ok? && Same(agents, HistoryState(session, history).value)
    ensures SameOutcome(ReplayOne(agents, session, e), HistoryState(session, history + [e]))
  {
    var h := HistoryState(session, history).value;
    ReplayConcat(map[], session, history, [e]);
    assert [e][1..] == [];
    assert Replay(h, session, [e]) ==
           match ReplayOne(h, session, e) case Err(x) => Err(x) case Ok(n) => Replay(n, session, []);
    ReplayOneSame(agents, h, session, e);
  }

  // ---------- after recovery ----------

  const INTERRUPT_REASON := "interrupted by previous process exit"
}
