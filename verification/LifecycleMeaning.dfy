/** What lifecycle events mean (internal/feature/agent: domain_event, transition): the status each kind
    of event leaves, on its own and over whole runs, in literal states. */
module LifecycleMeaning {
  import opened Lifecycle
  import opened LifecycleCoordinator
  import opened LifecycleRuns
  import Text

  // ---------- one event ----------

  /** The states an event of this kind may find. A repeated event of a state finds that state too. */
  predicate MayFind(state: AgentState, kind: Kind) {
    var live := state == Queued || state == Running || state == Canceling;
    match kind
    case AgentQueued => state == NoState || state == Queued
    case AgentStarted => state == Queued || state == Running
    case CancelRequested => live
    case AgentCompleted => state == Running || state == Canceling || state == Completed
    case AgentFailed => live || state == Failed
    case AgentCanceled => live || state == Canceled
    case AgentInterrupted => live || state == Resuming || state == Interrupted
    case ResumeRequested => state == Interrupted || state == Resuming
    case AgentResumed => state == Resuming || state == Resumed
    case OtherKind(_) => false
  }

  /** The state and the kind of the event that led to it. */
  predicate LeftBy(state: AgentState, kind: Kind) {
    && (kind == AgentQueued <==> state == Queued)
    && (kind == AgentStarted <==> state == Running)
    && (kind == CancelRequested <==> state == Canceling)
    && (kind == AgentCompleted <==> state == Completed)
    && (kind == AgentFailed <==> state == Failed)
    && (kind == AgentCanceled <==> state == Canceled)
    && (kind == AgentInterrupted <==> state == Interrupted)
    && (kind == ResumeRequested <==> state == Resuming)
    && (kind == AgentResumed <==> state == Resumed)
    && state != NoState && !kind.OtherKind?
  }

  predicate Ends(kind: Kind) {
    kind == AgentCompleted || kind == AgentFailed || kind == AgentCanceled || kind == AgentInterrupted || kind == AgentResumed
  }

  predicate Fits(s: Status, e: Event) {
    e.version == s.version + 1 && (s.id == "" || s.id == e.agent) && (s.session == "" || s.session == e.session)
  }

  /** An event is accepted exactly when it is the next one of this agent and finds a fitting state. */
  lemma {:induction false} AcceptedIffItFits(s: Status, e: Event)
    ensures ApplyEvent(s, e).Ok? <==> Fits(s, e) && MayFind(s.state, e.kind)
    ensures Fits(s, e) && !e.kind.OtherKind? && !MayFind(s.state, e.kind) ==>
              ApplyEvent(s, e).error.InvalidTransition? && ApplyEvent(s, e).error.from == s.state && LeftBy(ApplyEvent(s, e).error.to, e.kind)
    ensures e.version != s.version + 1 ==> ApplyEvent(s, e) == Err(VersionConflict)
  {
  }

  /** Which state, reason and times an accepted event leaves for a known agent. */
  lemma {:induction false} EventLeaves(s: Status, e: Event)
    requires s.state != NoState && ApplyEvent(s, e).Ok?
    ensures var t := ApplyEvent(s, e).value;
            && LeftBy(t.state, e.kind) && t.version == e.version == s.version + 1 && t.reason == e.reason
            && t.startedAt == (if e.kind == AgentStarted && s.startedAt == 0 then e.at else s.startedAt)
            && t.finishedAt == (if Ends(e.kind) then e.at else s.finishedAt)
  {
  }

  /** What it keeps: everything the admission said, and links the event does not replace. */
  lemma {:induction false} EventKeeps(s: Status, e: Event)
    requires s.state != NoState && ApplyEvent(s, e).Ok?
    ensures var t := ApplyEvent(s, e).value;
            && t.session == s.session && t.id == s.id && t.parent == s.parent && t.profile == s.profile && t.task == s.task
            && t.startTime == s.startTime
            && t.resumedFrom == (if e.resumedFrom != "" then e.resumedFrom else s.resumedFrom)
            && t.resumedAs == (if e.resumedAs != "" then e.resumedAs else s.resumedAs)
  {
  }

  /** And for one no event has mentioned yet. */
  lemma {:induction false} FirstEventLeaves(s: Status, e: Event)
    requires s.state == NoState && ApplyEvent(s, e).Ok?
    ensures e.kind == AgentQueued
    ensures ApplyEvent(s, e).value ==
            Status(e.session, e.agent, e.parent, e.profile, e.task, Queued, e.version, e.at, 0, 0, "", e.resumedFrom, e.resumedAs)
  {
  }

  // ---------- one step of a run ----------

  lemma {:induction false} KnownState(agents: Agents, session: string, id: string)
    requires Filed(agents, session) && id in agents
    ensures agents[id].state != NoState
  {
  }

  /** The kind of event a step records for the agent it names. */
  predicate Records(a: Action, kind: Kind) {
    && (a.Start? ==> kind == AgentStarted)
    && (a.StoreTerminal? ==> kind == a.kind)
    && (a.Cancel? ==> kind == CancelRequested)
    && (a.RequestResume? ==> kind == ResumeRequested)
    && (a.BindResume? ==> kind == AgentResumed)
    && (a.RollBackResume? || a.Interrupt? ==> kind == AgentInterrupted)
  }

  /** The reason it records. */
  predicate Says(a: Action, reason: string) {
    && (a.Start? ==> reason == "")
    && (a.StoreTerminal? ==> reason == a.reason)
    && (a.Cancel? ==> reason == "cancel requested")
    && (a.RequestResume? ==> reason == "resume requested")
    && (a.BindResume? ==> reason == "resumed as " + a.child)
    && (a.RollBackResume? ==> reason == "resume admission failed")
    && (a.Interrupt? ==> reason == "interrupted by previous process exit")
  }

  /** An accepted transition moves the agent it names, and no other, to the state its event leaves, at
      its time; one refused by the store, or cancelling a resuming record, moves nobody. */
  lemma {:induction false} TransitionMeans(s: State, a: Action) returns (e: Event)
    requires LifecycleRuns.Inv(s) && Enabled(s, a) && Transitions(a)
    ensures a.id in s.agents
    ensures !a.accepted || CancelsResuming(s, a) ==> Apply(s, a).agents == s.agents
    ensures !a.accepted ==> Apply(s, a).journal == s.journal
    ensures a.accepted ==> Apply(s, a).journal == s.journal + [Fact(e, CancelsResuming(s, a))]
    ensures a.accepted && !CancelsResuming(s, a) ==>
              var t := Apply(s, a).agents;
              && Records(a, e.kind) && e.agent == a.id && e.at == a.at
              && e.resumedFrom == s.agents[a.id].resumedFrom && e.resumedAs == (if a.BindResume? then a.child else s.agents[a.id].resumedAs)
              && Says(a, e.reason) && (a.BindResume? ==> a.child != "") && a.id in t && t == s.agents[a.id := t[a.id]] && ApplyEvent(s.agents[a.id], e) == Ok(t[a.id])
              && LeftBy(t[a.id].state, e.kind)
  {
    e := EventFor(s.agents[a.id], a);
    if a.accepted {
      e := AppendMoves(s, a);
      EventCarries(s.agents[a.id], a);
      if !CancelsResuming(s, a) {
        EventShape(s.agents[a.id], a);
        NextOfKnown(s.agents, s.session, a.id, e);
        KnownState(s.agents, s.session, a.id);
        EventLeaves(s.agents[a.id], e);
      }
    }
  }

  /** The event a step records names the agent as its status does, at the next version. */
  lemma {:induction false} EventCarries(status: Status, a: Action)
    requires Transitions(a)
    ensures var e := EventFor(status, a);
            && Records(a, e.kind) && e.at == a.at && e.resumedFrom == status.resumedFrom
            && e.session == status.session && e.agent == status.id && e.parent == status.parent && e.profile == status.profile && e.task == status.task
            && e.version == status.version + 1
            && e.resumedAs == (if a.BindResume? then a.child else status.resumedAs)
            && Says(a, e.reason)
  {
  }

  lemma {:induction false} NextOfKnown(agents: Agents, session: string, id: string, e: Event)
    requires Filed(agents, session) && id in agents && e.agent == id && e.version == agents[id].version + 1
    requires e.session == session && ReplayOne(agents, session, e).Ok?
    ensures id in ReplayOne(agents, session, e).value && ApplyEvent(agents[id], e) == Ok(ReplayOne(agents, session, e).value[id])
  {
  }

  /** An accepted admission adds one queued agent with what was asked for. */
  lemma {:induction false} AdmissionMeans(s: State, a: Action)
    requires Enabled(s, a) && a.Admit?
    ensures a.accepted ==>
              && Apply(s, a).agents == s.agents[a.id := Status(s.session, a.id, a.parent, a.profile, a.task, Queued, 1, a.at, 0, 0, "", a.resumedFrom, "")]
              && exists e: Event :: Apply(s, a).journal == s.journal + [Fact(e, false)] && IsAdmission(e, s.session, a)
    ensures !a.accepted ==> Apply(s, a).agents == s.agents && Apply(s, a).journal == s.journal
  {
    var e := QueuedEvent(s.session, a.id, a.parent, a.profile, a.task, a.resumedFrom, a.at);
    assert IsAdmission(e, s.session, a);
    QueuedAdds(s, e);
  }

  predicate IsAdmission(e: Event, session: string, a: Action)
    requires a.Admit?
  {
    e == Event(AgentQueued, 1, a.at, session, a.parent, a.id, a.profile, a.task, "", a.resumedFrom, "")
  }

  lemma {:induction false} InvIsThreaded(s: State, id: string)
    requires LifecycleRuns.Inv(s) && id in s.agents
    ensures Threads(s) && s.agents[id].state != NoState
  {
    hide Replay, Stray, Accepted, SameOutcome;
    KnownState(s.agents, s.session, id);
  }

  /** What the goroutine of an agent may do: a start needs a queued agent, a completion one that has started. */
  lemma {:induction false} GoroutineSteps(s: State, id: string, at: nat, text: string, accepted: bool)
    requires LifecycleRuns.Inv(s) && id in s.agents
    ensures Enabled(s, Start(id, at, accepted)) <==> id in s.workers && s.agents[id].state == Queued
    ensures Enabled(s, StoreTerminal(id, AgentCompleted, at, text, accepted)) <==> id in s.workers && s.workers[id].Working?
    ensures Enabled(s, StoreTerminal(id, AgentFailed, at, text, accepted)) <==> id in s.workers
    ensures Enabled(s, StoreTerminal(id, AgentCanceled, at, text, accepted)) <==> id in s.workers
  {
    hide LifecycleRuns.Inv;
    InvIsThreaded(s, id);
  }

  /** What may happen to an agent from outside: a cancel finds any live one, an interruption one that
      nobody attends to, a resume an interrupted one. */
  lemma {:induction false} RecordSteps(s: State, id: string, at: nat, text: string, accepted: bool)
    requires LifecycleRuns.Inv(s) && id in s.agents
    ensures var state := s.agents[id].state;
            var live := state == Queued || state == Running || state == Canceling || state == Resuming;
            && (Enabled(s, Cancel(id, at, accepted)) <==> live)
            && (Enabled(s, RequestResume(id, at, accepted)) <==> state == Interrupted)
            && (Enabled(s, BindResume(id, text, at, accepted)) <==> id in s.resuming && |text| > 0)
            && (Enabled(s, RollBackResume(id, at, accepted)) <==> id in s.resuming)
            && (Enabled(s, Interrupt(id, at, accepted)) <==> live && id !in s.workers && id !in s.resuming)
  {
    hide LifecycleRuns.Inv;
    InvIsThreaded(s, id);
  }

  /** Snapshot and compaction may happen at any time; a crash is followed by a recovery that works. */
  lemma {:induction false} StoreStepsNeverWait(s: State)
    ensures Enabled(s, InstallSnapshot) && Enabled(s, Compact)
    ensures Enabled(s, Crash) <==> Replay(s.base, s.session, Events(s.journal)).Ok?
  {
  }

  /** Who has a goroutine or a resumption under way after a step. */
  lemma {:induction false} StepsAttend(s: State, a: Action, id: string)
    requires Enabled(s, a)
    ensures id in Apply(s, a).workers <==>
            (a.Admit? && a.id == id && a.accepted) || (id in s.workers && !a.Crash? && !(a.StoreTerminal? && a.id == id))
    ensures id in Apply(s, a).workers ==>
            (Apply(s, a).workers[id].Working? <==> (a.Start? && a.id == id && a.accepted) || (id in s.workers && s.workers[id].Working? && !(a.Admit? && a.id == id && a.accepted)))
    ensures id in Apply(s, a).resuming <==>
            (a.RequestResume? && a.id == id && a.accepted) || (id in s.resuming && !a.Crash? && !((a.BindResume? || a.RollBackResume?) && a.id == id))
  {
  }

  // ---------- whole runs ----------

  /** The event a step added to the journal and the table accepted, if any. */
  function NewEvent(before: seq<Fact>, after: seq<Fact>): seq<Event> {
    if |after| == |before| + 1 && !after[|before|].rejected then [after[|before|].event] else []
  }

  /** Every event the table accepted up to the n-th state of a run, whatever the journal has dropped since. */
  function History(run: seq<State>, n: nat): seq<Event>
    requires n < |run|
  {
    if n == 0 then [] else History(run, n - 1) + NewEvent(run[n - 1].journal, run[n].journal)
  }

  function Of(events: seq<Event>, id: string): seq<Event> {
    if events == [] then []
    else Of(events[..|events| - 1], id) + if events[|events| - 1].agent == id then [events[|events| - 1]] else []
  }

  lemma {:induction false} OfAppend(events: seq<Event>, e: Event, id: string)
    ensures Of(events + [e], id) == Of(events, id) + if e.agent == id then [e] else []
  {
    assert (events + [e])[..|events|] == events;
  }

  /** When the first start that has a time happened. */
  function StartTime(events: seq<Event>): nat {
    if events == [] then 0
    else
      var earlier := StartTime(events[..|events| - 1]);
      if earlier != 0 then earlier else if events[|events| - 1].kind == AgentStarted then events[|events| - 1].at else 0
  }

  /** When the last event that ends an agent happened. */
  function EndTime(events: seq<Event>): nat {
    if events == [] then 0
    else if Ends(events[|events| - 1].kind) then events[|events| - 1].at
    else EndTime(events[..|events| - 1])
  }

  /** The status is what the accepted events of its agent tell, task text aside. */
  predicate Told(s: Status, events: seq<Event>) {
    && events != [] && events[0].kind == AgentQueued && s.version == |events|
    && s.startTime == events[0].at && s.parent == events[0].parent && s.profile == events[0].profile && s.resumedFrom == events[0].resumedFrom
    && LeftBy(s.state, events[|events| - 1].kind)
    && s.reason == events[|events| - 1].reason && s.resumedAs == events[|events| - 1].resumedAs
    && s.startedAt == StartTime(events) && s.finishedAt == EndTime(events)
  }

  predicate AgentTold(agents: Agents, events: seq<Event>, id: string) {
    if id in agents then Told(agents[id], Of(events, id)) else Of(events, id) == []
  }

  ghost predicate AllTold(agents: Agents, events: seq<Event>) {
    forall id :: AgentTold(agents, events, id)
  }

  lemma {:induction false} TimesAppend(events: seq<Event>, e: Event)
    ensures StartTime(events + [e]) == if StartTime(events) != 0 then StartTime(events) else if e.kind == AgentStarted then e.at else 0
    ensures EndTime(events + [e]) == if Ends(e.kind) then e.at else EndTime(events)
  {
    assert (events + [e])[..|events|] == events;
  }

  /** One more accepted event of an agent is told by its new status. */
  lemma {:induction false} NextIsTold(s: Status, events: seq<Event>, e: Event)
    requires s.state != NoState && Told(s, events) && ApplyEvent(s, e).Ok? && e.resumedFrom == s.resumedFrom
    requires e.resumedAs == s.resumedAs || e.resumedAs != ""
    ensures Told(ApplyEvent(s, e).value, events + [e])
  {
    hide ApplyEvent;
    EventLeaves(s, e);
    EventKeeps(s, e);
    TimesAppend(events, e);
  }

  lemma {:induction false} OneMoreIsTold(agents: Agents, events: seq<Event>, e: Event, status: Status)
    requires AllTold(agents, events) && Told(status, Of(events, e.agent) + [e])
    ensures AllTold(agents[e.agent := status], events + [e])
  {
    hide Told;
    var after, longer := agents[e.agent := status], events + [e];
    forall id ensures AgentTold(after, longer, id) {
      assert AgentTold(agents, events, id);
      OfAppend(events, e, id);
      assert Of(events, id) + [] == Of(events, id);
    }
  }

  lemma {:induction false} MovedIsTold(agents: Agents, session: string, events: seq<Event>, e: Event, moved: Status)
    requires Filed(agents, session) && AllTold(agents, events) && e.agent in agents && ApplyEvent(agents[e.agent], e) == Ok(moved)
    requires e.resumedFrom == agents[e.agent].resumedFrom && (e.resumedAs == agents[e.agent].resumedAs || e.resumedAs != "")
    ensures AllTold(agents[e.agent := moved], events + [e])
  {
    hide Told, ApplyEvent;
    assert AgentTold(agents, events, e.agent);
    KnownState(agents, session, e.agent);
    NextIsTold(agents[e.agent], Of(events, e.agent), e);
    OneMoreIsTold(agents, events, e, moved);
  }

  lemma {:induction false} TransitionIsTold(s: State, a: Action, events: seq<Event>)
    requires LifecycleRuns.Inv(s) && Enabled(s, a) && Transitions(a) && AllTold(s.agents, events)
    ensures AllTold(Apply(s, a).agents, events + NewEvent(s.journal, Apply(s, a).journal))
  {
    hide Apply, Enabled, LeftBy, Records, ApplyEvent, Threads, CancelsResuming, AllTold;
    var e := TransitionMeans(s, a);
    var t := Apply(s, a);
    if !a.accepted || CancelsResuming(s, a) {
      assert NewEvent(s.journal, t.journal) == [] && events + [] == events;
    } else {
      assert NewEvent(s.journal, t.journal) == [e];
      MovedIsTold(s.agents, s.session, events, e, t.agents[a.id]);
    }
  }

  lemma {:induction false} AdmissionIsTold(s: State, a: Action, events: seq<Event>)
    requires Enabled(s, a) && a.Admit? && AllTold(s.agents, events)
    ensures AllTold(Apply(s, a).agents, events + NewEvent(s.journal, Apply(s, a).journal))
  {
    AdmissionMeans(s, a);
    var t := Apply(s, a);
    assert AgentTold(s.agents, events, a.id);
    hide Apply, AgentTold;
    if a.accepted {
      var e :| t.journal == s.journal + [Fact(e, false)] && IsAdmission(e, s.session, a);
      assert NewEvent(s.journal, t.journal) == [e];
      TimesAppend([], e);
      assert [] + [e] == [e];
      OneMoreIsTold(s.agents, events, e, t.agents[a.id]);
    } else {
      assert events + [] == events;
    }
  }

  lemma {:induction false} SameIsTold(a: Agents, b: Agents, events: seq<Event>)
    requires Same(a, b) && AllTold(a, events)
    ensures AllTold(b, events)
  {
    forall id ensures AgentTold(b, events, id) {
      assert AgentTold(a, events, id) && (id in a ==> SameStatus(a[id], b[id]));
    }
  }

  lemma {:induction false} StepIsTold(s: State, a: Action, events: seq<Event>)
    requires LifecycleRuns.Inv(s) && Enabled(s, a) && AllTold(s.agents, events)
    ensures AllTold(Apply(s, a).agents, events + NewEvent(s.journal, Apply(s, a).journal))
  {
    if Transitions(a) { TransitionIsTold(s, a, events); }
    else if a.Admit? { AdmissionIsTold(s, a, events); }
    else {
      assert events + [] == events;
      if a.Crash? {
        RecoverableIffStraysRepresented(s);
        SameIsTold(s.agents, Apply(s, a).agents, events);
      }
    }
  }

  /** In every state of every run, crashes, compactions and refused appends included, the status of an
      agent is what the accepted events about it tell: its state is left by the last of them, its version
      counts them, and it started and ended when they say. */
  lemma {:induction false} StatusTellsTheEvents(run: seq<State>, actions: seq<Action>, n: nat)
    requires LifecycleRuns.IsRun(run, actions) && n < |run|
    ensures AllTold(run[n].agents, History(run, n))
  {
    if n == 0 {
    } else {
      StatusTellsTheEvents(run, actions, n - 1);
      RunKeepsInv(run, actions, n - 1);
      StepIsTold(run[n - 1], actions[n - 1], History(run, n - 1));
    }
  }

  /** An agent is completed if and only if the last accepted event about it is a completion; likewise for
      each other state and its kind of event. */
  lemma {:induction false} CompletedIffLastEventSaysSo(run: seq<State>, actions: seq<Action>, n: nat, id: string)
    requires LifecycleRuns.IsRun(run, actions) && n < |run| && id in run[n].agents
    ensures Of(History(run, n), id) != []
    ensures var state := run[n].agents[id].state;
            var last := Of(History(run, n), id)[|Of(History(run, n), id)| - 1].kind;
            && (state == Completed <==> last == AgentCompleted)
            && (state == Failed <==> last == AgentFailed)
            && (state == Canceled <==> last == AgentCanceled)
            && (state == Running <==> last == AgentStarted)
            && (state == Queued <==> last == AgentQueued)
            && (state == Canceling <==> last == CancelRequested)
            && (state == Interrupted <==> last == AgentInterrupted)
            && (state == Resuming <==> last == ResumeRequested)
            && (state == Resumed <==> last == AgentResumed)
  {
    StatusTellsTheEvents(run, actions, n);
    assert AgentTold(run[n].agents, History(run, n), id);
  }

  // ---------- snapshots and recovery ----------

  /** A snapshot keeps every field of a status; of a task text only the first 16384 characters. */
  lemma {:induction false} SnapshotKeeps(s: Status)
    ensures ShortTask(s).(task := s.task) == s
    ensures ShortTask(s).task == if |s.task| <= 16384 then s.task else s.task[..16384]
  {
  }

  /** A snapshot record is put back under its id unless that is blank or the record belongs to another
      session; a missing session or version is filled in. */
  lemma {:induction false} RecordIsInstalled(agents: Agents, session: string, s: Status)
    ensures (forall c <- s.id :: Text.IsSpace(c)) ==> InstallOne(agents, session, s) == agents
    ensures s.session != "" && s.session != session ==> InstallOne(agents, session, s) == agents
    ensures !(forall c <- s.id :: Text.IsSpace(c)) && (s.session == "" || s.session == session) ==>
              && s.id in InstallOne(agents, session, s) && InstallOne(agents, session, s) == agents[s.id := InstallOne(agents, session, s)[s.id]]
              && InstallOne(agents, session, s)[s.id] == s.(session := session, version := InstallOne(agents, session, s)[s.id].version)
              && InstallOne(agents, session, s)[s.id].version == (if s.version > 0 then s.version else 1)
  {
  }

  /** What recovery makes of an agent: an ended one is left alone, a live one is interrupted. */
  lemma {:induction false} InterruptionMeans(s: Status, at: nat)
    ensures s.state == Completed || s.state == Failed || s.state == Canceled || s.state == Interrupted || s.state == Resumed ==> Interruption(s, at) == s
    ensures s.state == Queued || s.state == Running || s.state == Canceling || s.state == Resuming ==>
              Interruption(s, at) == s.(state := Interrupted, reason := "interrupted by previous process exit", finishedAt := at, version := s.version + 1)
  {
  }

  /** One journal fact met during replay: foreign and blank ones are passed over, a fact at or below the
      agent's version is known already, the next one is applied, and a gap is a conflict. */
  lemma {:induction false} ReplayMeans(agents: Agents, session: string, e: Event)
    requires Filed(agents, session)
    ensures e.session != session || (forall c <- e.agent :: Text.IsSpace(c)) ==> ReplayOne(agents, session, e) == Ok(agents)
    ensures e.session == session && e.agent in agents && e.version <= agents[e.agent].version ==> ReplayOne(agents, session, e) == Ok(agents)
    ensures e.session == session && e.agent in agents && e.version > agents[e.agent].version + 1 ==> ReplayOne(agents, session, e) == Err(VersionConflict)
    ensures e.session == session && e.agent in agents && e.version == agents[e.agent].version + 1 ==>
              ReplayOne(agents, session, e) ==
              (if ApplyEvent(agents[e.agent], e).Ok? then Ok(agents[e.agent := ApplyEvent(agents[e.agent], e).value]) else Err(ApplyEvent(agents[e.agent], e).error))
    ensures e.session == session && !(forall c <- e.agent :: Text.IsSpace(c)) && e.agent !in agents ==>
              (ReplayOne(agents, session, e).Ok? <==> e.kind == AgentQueued && e.version == 1)
  {
  }
}
