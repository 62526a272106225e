/** The write-ahead coordinator (internal/feature/agent: lifecycle_store, lifecycle, recovery,
    persistence): events are appended to a journal before the in-memory status moves, a snapshot
    can replace a journal prefix, and a restarted process rebuilds its agents from both. */
module LifecycleCoordinator {
  import opened Lifecycle

  datatype Option<+T> = None | Some(value: T)

  const MAX_PERSISTENT_TASK := 16 * 1024

  function ShortTask(s: Status): Status {
    if |s.task| <= MAX_PERSISTENT_TASK then s else s.(task := s.task[..MAX_PERSISTENT_TASK])
  }

  /** One snapshot record put back into the agent table. */
  function InstallOne(agents: Agents, session: string, s: Status): Agents {
    if Blank(s.id) || (s.session != "" && s.session != session) then agents
    else agents[s.id := s.(session := session, version := if s.version == 0 then 1 else s.version)]
  }

  function InstallAll(agents: Agents, session: string, records: seq<Status>): Agents
    decreases |records|
  {
    if records == [] then agents
    else InstallOne(InstallAll(agents, session, records[..|records| - 1]), session, records[|records| - 1])
  }

  /** What the status of an agent becomes when the process that ran it is gone. */
  function Interruption(s: Status, at: nat): Status {
    if Terminal(s.state) then s
    else s.(state := Interrupted, reason := INTERRUPT_REASON, finishedAt := at, version := s.version + 1)
  }

  /** `after` is `before` with every live agent interrupted, task text aside. */
  predicate InterruptedFrom(before: Agents, after: Agents, at: nat) {
    before.Keys == after.Keys && forall id <- before :: SameStatus(after[id], Interruption(before[id], at))
  }

  predicate PartlyInterrupted(before: Agents, after: Agents, ids: set<string>, at: nat) {
    before.Keys == after.Keys &&
    forall id <- before :: after[id] == if id in ids then before[id] else Interruption(before[id], at)
  }

  lemma {:induction false} PartStep(before: Agents, during: Agents, after: Agents, ids: set<string>, id: string, at: nat)
    requires PartlyInterrupted(before, during, ids, at) && id in ids && id in during
    requires id in after && after == during[id := after[id]] && after[id] == Interruption(during[id], at)
    ensures PartlyInterrupted(before, after, ids - {id}, at)
  {
  }

  lemma {:induction false} PartDone(before: Agents, after: Agents, at: nat)
    requires PartlyInterrupted(before, after, {}, at)
    ensures InterruptedFrom(before, after, at)
  {
  }

  /** The records written so far install the agents in `put`, task text aside. */
  predicate Records(session: string, agents: Agents, records: seq<Status>, put: set<string>) {
    var installed := InstallAll(map[], session, records);
    put <= agents.Keys && installed.Keys == put && forall id <- put :: SameStatus(installed[id], agents[id])
  }

  lemma {:induction false} RecordOne(session: string, agents: Agents, records: seq<Status>, put: set<string>, id: string)
    requires Filed(agents, session) && Records(session, agents, records, put) && id in agents
    ensures Records(session, agents, records + [ShortTask(agents[id])], put + {id})
  {
    assert (records + [ShortTask(agents[id])])[..|records|] == records;
  }

  lemma {:induction false} SnapshotKeepsDurable(session: string, agents: Agents, journal: seq<Event>, snapshot: Option<seq<Status>>,
      history: seq<Event>, dropped: nat, taken: nat, records: seq<Status>)
    requires DurableFacts(session, journal, snapshot, history, dropped, taken) && TableMatches(session, agents, history)
    requires Records(session, agents, records, agents.Keys)
    ensures DurableFacts(session, journal, Some(records), history, dropped, |history|)
    ensures DurableFacts(session, [], Some(records), history, |history|, |history|)
  {
    assert history[..|history|] == history && history[|history|..] == [];
    var installed, rebuilt := InstallAll(map[], session, records), HistoryState(session, history).value;
    forall id <- installed ensures SameStatus(installed[id], rebuilt[id]) {
      assert SameStatus(installed[id], agents[id]);
    }
  }

  /** The store may turn down an append. */
  ghost predicate Refuses(accept: Event -> bool) {
    exists e: Event :: !accept(e)
  }

  predicate AllTerminal(agents: Agents) {
    forall id <- agents :: Terminal(agents[id].state)
  }

  /** Every live status accepts the interruption recovery issues. */
  lemma {:induction false} InterruptionIsApplied(s: Status, at: nat)
    requires s.state != NoState && s.id != "" && !Terminal(s.state)
    ensures ApplyEvent(s, NextEvent(s, AgentInterrupted, at, INTERRUPT_REASON)) == Ok(Interruption(s, at))
  {
  }

  lemma {:induction false} TerminalUpToTask(a: Agents, b: Agents)
    requires Same(a, b)
    ensures AllTerminal(a) <==> AllTerminal(b)
  {
  }

  lemma {:induction false} InterruptedUpToTask(a: Agents, b: Agents, after: Agents, at: nat)
    requires Same(a, b) && InterruptedFrom(a, after, at)
    ensures InterruptedFrom(b, after, at) && AllTerminal(after)
  {
  }

  /** The journal is a suffix of the history that starts no later than the snapshot was taken,
      and the snapshot is the projection of the prefix it represents. */
  ghost predicate DurableFacts(session: string, journal: seq<Event>, snapshot: Option<seq<Status>>, history: seq<Event>, dropped: nat, taken: nat) {
    && session != ""
    && dropped <= taken <= |history| && journal == history[dropped..]
    && HistoryState(session, history).Ok? && HistoryState(session, history[..taken]).Ok?
    && (snapshot.None? ==> taken == 0)
    && (snapshot.Some? ==>
          Same(InstallAll(map[], session, snapshot.value), HistoryState(session, history[..taken]).value))
  }

  /** The table is the projection of the history. */
  ghost predicate TableMatches(session: string, agents: Agents, history: seq<Event>) {
    HistoryState(session, history).Ok? && Filed(agents, session) && Same(agents, HistoryState(session, history).value)
  }

  /** Table and durable part both tell the whole history. */
  ghost predicate InStep(session: string, agents: Agents, journal: seq<Event>, snapshot: Option<seq<Status>>, history: seq<Event>, dropped: nat, taken: nat) {
    DurableFacts(session, journal, snapshot, history, dropped, taken) && TableMatches(session, agents, history)
  }

  lemma {:induction false} AppendKeepsDurable(session: string, journal: seq<Event>, snapshot: Option<seq<Status>>, history: seq<Event>, dropped: nat, taken: nat, e: Event)
    requires DurableFacts(session, journal, snapshot, history, dropped, taken)
    ensures DurableFacts(session, journal + [e], snapshot, history + [e], dropped, taken) <==> HistoryState(session, history + [e]).Ok?
  {
    assert (history + [e])[..taken] == history[..taken];
    assert (history + [e])[dropped..] == history[dropped..] + [e];
  }

  lemma {:induction false} AppendMatches(session: string, agents: Agents, history: seq<Event>, id: string, e: Event)
    requires TableMatches(session, agents, history) && id in agents
    requires e.version == agents[id].version + 1 && e.agent == id && e.session == session
    ensures ApplyEvent(agents[id], e).Ok? ==> TableMatches(session, agents[id := ApplyEvent(agents[id], e).value], history + [e])
    ensures ApplyEvent(agents[id], e).Err? ==> HistoryState(session, history + [e]).Err?
  {
    HistoryAppend(session, history, agents, e);
    ReplayOneFiled(agents, session, e);
  }

  /** An appended event keeps table and durable part in step exactly when the table accepts it. */
  lemma {:induction false} AppendKeepsBothIffApplied(session: string, agents: Agents, journal: seq<Event>, snapshot: Option<seq<Status>>,
      history: seq<Event>, dropped: nat, taken: nat, id: string, e: Event)
    requires InStep(session, agents, journal, snapshot, history, dropped, taken)
    requires id in agents && e.version == agents[id].version + 1 && e.agent == id && e.session == session
    ensures var r := ApplyEvent(agents[id], e);
            InStep(session, if r.Ok? then agents[id := r.value] else agents, journal + [e], snapshot, history + [e], dropped, taken) <==> r.Ok?
  {
    AppendKeepsDurable(session, journal, snapshot, history, dropped, taken, e);
    AppendMatches(session, agents, history, id, e);
  }

  lemma {:induction false} TableIsFiled(session: string, agents: Agents, history: seq<Event>, id: string)
    requires TableMatches(session, agents, history) && id in agents
    ensures agents[id].id == id != "" && agents[id].session == session && agents[id].state != NoState
  {
  }

  /** A cancel request moves every live agent to Canceling, except a resuming one. */
  lemma {:induction false} CancelMoves(s: Status, at: nat)
    requires !Terminal(s.state)
    ensures var r := ApplyEvent(s, CancelEvent(s, at));
            && (s.state != NoState && s.id != "" ==> (r.Ok? <==> s.state != Resuming))
            && (r.Ok? ==> r.value.state == Canceling && r.value.version == s.version + 1)
  {
  }

  function QueuedEvent(session: string, id: string, parent: string, profile: Profile, task: string, resumedFrom: string, at: nat): Event {
    Event(AgentQueued, 1, at, session, parent, id, profile, task, "", resumedFrom, "")
  }

  function CancelEvent(s: Status, at: nat): Event {
    NextEvent(s, CancelRequested, at, "cancel requested")
  }

  class Coordinator {
    const session: string
    var agents: Agents
    // the durable part
    var journal: seq<Event>
    var snapshot: Option<seq<Status>>
    // every fact ever appended, how many the journal dropped, how many the snapshot represents
    ghost var history: seq<Event>
    ghost var dropped: nat
    ghost var taken: nat

    /** What survives the process. */
    ghost predicate Durable()
      reads this
    {
      DurableFacts(session, journal, snapshot, history, dropped, taken)
    }

    /** The in-memory table is the projection of everything appended. */
    ghost predicate Valid()
      reads this
    {
      InStep(session, agents, journal, snapshot, history, dropped, taken)
    }

    constructor (session: string)
      requires session != ""
      ensures Valid() && agents == map[] && journal == [] && this.session == session
    {
      this.session := session;
      agents, journal, snapshot := map[], [], None;
      history, dropped, taken := [], 0, 0;
    }

    /** Append first, then move the projection; a refused append changes nothing, an event the
        projection rejects stays in the journal. */
    method PersistAndApply(id: string, e: Event, accept: Event -> bool) returns (r: Result<Status>)
      requires id in agents
      modifies this`agents, this`journal, this`history
      ensures !accept(e) ==> r == Err(StoreRefused) && agents == old(agents) && journal == old(journal) && history == old(history)
      ensures accept(e) ==> r == ApplyEvent(old(agents)[id], e) && journal == old(journal) + [e] && history == old(history) + [e]
      ensures r.Ok? ==> agents == old(agents)[id := r.value]
      ensures r.Err? ==> agents == old(agents)
      ensures old(Valid()) && e.version == old(agents)[id].version + 1 && e.agent == id && e.session == session ==>
                (Valid() <==> (accept(e) ==> r.Ok?))
    {
      if !accept(e) { return Err(StoreRefused); }
      if Valid() && e.version == agents[id].version + 1 && e.agent == id && e.session == session {
        AppendKeepsBothIffApplied(session, agents, journal, snapshot, history, dropped, taken, id, e);
      }
      journal, history := journal + [e], history + [e];
      r := ApplyEvent(agents[id], e);
      if r.Ok? { agents := agents[id := r.value]; }
    }

    method PersistTransition(id: string, kind: Kind, at: nat, reason: string, accept: Event -> bool) returns (r: Result<Status>)
      requires id in agents
      modifies this`agents, this`journal, this`history
      ensures var e := NextEvent(old(agents)[id], kind, at, reason);
              && (accept(e) ==> r == ApplyEvent(old(agents)[id], e) && journal == old(journal) + [e] && history == old(history) + [e])
              && (!accept(e) ==> r == Err(StoreRefused) && journal == old(journal) && history == old(history))
              && (old(Valid()) ==> (Valid() <==> (accept(e) ==> r.Ok?)))
      ensures agents == if r.Ok? then old(agents)[id := r.value] else old(agents)
    {
      var e := NextEvent(agents[id], kind, at, reason);
      r := PersistAndApply(id, e, accept);
    }

    /** Admission of a child under an explicit id. */
    method Spawn(id: string, parent: string, profile: Profile, task: string, resumedFrom: string, at: nat, accept: Event -> bool)
        returns (r: Result<Status>)
      requires !Blank(id)
      modifies this`agents, this`journal, this`history
      ensures old(Valid()) ==> Valid()
      ensures r.Ok? <==> id !in old(agents) && accept(QueuedEvent(session, id, parent, profile, task, resumedFrom, at))
      ensures r.Ok? ==>
                && agents == old(agents)[id := r.value]
                && r.value == Status(session, id, parent, profile, task, Queued, 1, at, 0, 0, "", resumedFrom, "")
                && journal == old(journal) + [QueuedEvent(session, id, parent, profile, task, resumedFrom, at)]
      ensures r.Err? ==> r.error == (if id in old(agents) then AlreadyExists else StoreRefused)
      ensures r.Err? ==> agents == old(agents) && journal == old(journal) && history == old(history)
    {
      if id in agents { return Err(AlreadyExists); }
      var e := QueuedEvent(session, id, parent, profile, task, resumedFrom, at);
      if !accept(e) { return Err(StoreRefused); }
      if Valid() {
        AppendKeepsDurable(session, journal, snapshot, history, dropped, taken, e);
        HistoryAppend(session, history, agents, e);
      }
      journal, history := journal + [e], history + [e];
      r := ApplyEvent(NEW_STATUS, e);
      agents := agents[id := r.value];
    }

    /** Cancel checks only for a missing or terminal record, so a resuming one gets an event that no
        edge accepts. The table still equals the history exactly when that did not happen. */
    method Cancel(id: string, at: nat, accept: Event -> bool) returns (r: Result<()>)
      modifies this`agents, this`journal, this`history
      ensures id !in old(agents) ==> r == Err(NotFound)
      ensures id in old(agents) && Terminal(old(agents)[id].state) ==> r == Ok(())
      ensures id !in old(agents) || Terminal(old(agents)[id].state) ==> agents == old(agents) && journal == old(journal) && history == old(history)
      ensures id in old(agents) && !Terminal(old(agents)[id].state) ==>
                var e := CancelEvent(old(agents)[id], at);
                var moved := ApplyEvent(old(agents)[id], e);
                && r == (if !accept(e) then Err(StoreRefused) else if moved.Ok? then Ok(()) else Err(moved.error))
                && agents == (if r.Ok? then old(agents)[id := moved.value] else old(agents))
                && journal == (if accept(e) then old(journal) + [e] else old(journal))
                && (r.Ok? ==> agents[id].state == Canceling && agents[id].version == old(agents)[id].version + 1)
      ensures old(Valid()) && id in old(agents) && !Terminal(old(agents)[id].state) ==>
                (r.Ok? <==> accept(CancelEvent(old(agents)[id], at)) && old(agents)[id].state != Resuming)
      ensures old(Valid()) ==>
                (Valid() <==>
                 !(id in old(agents) && old(agents)[id].state == Resuming && accept(CancelEvent(old(agents)[id], at))))
    {
      if id !in agents { return Err(NotFound); }
      if Terminal(agents[id].state) { return Ok(()); }
      CancelMoves(agents[id], at);
      if Valid() { TableIsFiled(session, agents, history, id); }
      var moved := PersistTransition(id, CancelRequested, at, "cancel requested", accept);
      if moved.Err? { return Err(moved.error); }
      return Ok(());
    }

    /** Install the snapshot, then drop the journal; a crash or an error may come in between. */
    method Compact(installs: bool, truncates: bool) returns (ok: bool)
      modifies this`snapshot, this`journal, this`dropped, this`taken
      ensures old(Valid()) ==> Valid()
      ensures ok == (installs && truncates)
      ensures ok ==> journal == []
      ensures !installs ==> snapshot == old(snapshot)
      ensures !ok ==> journal == old(journal)
    {
      if !installs { return false; }
      var records: seq<Status> := [];
      var ids := agents.Keys;
      while ids != {}
        invariant ids <= agents.Keys
        invariant Filed(agents, session) ==> Records(session, agents, records, agents.Keys - ids)
        modifies {}
        decreases ids
      {
        var id :| id in ids;
        if Filed(agents, session) {
          RecordOne(session, agents, records, agents.Keys - ids, id);
          assert agents.Keys - ids + {id} == agents.Keys - (ids - {id});
        }
        records := records + [ShortTask(agents[id])];
        ids := ids - {id};
      }
      ghost var kept := Valid();
      if kept {
        assert agents.Keys - ids == agents.Keys;
        SnapshotKeepsDurable(session, agents, journal, snapshot, history, dropped, taken, records);
      }
      snapshot, taken := Some(records), |history|;
      assert kept ==> Valid();
      if !truncates { return false; }
      journal, dropped := [], |history|;
      return true;
    }

    /** The process exits: only the durable part is left. */
    method Restart()
      modifies this`agents
      ensures agents == map[]
      ensures old(Durable()) ==> Durable()
    {
      agents := map[];
    }

    /** The events loop of recovery. */
    method ReplayJournal() returns (r: Result<()>)
      modifies this`agents
      ensures r.Ok? ==> Replay(old(agents), session, journal) == Ok(agents)
      ensures r.Err? ==> Replay(old(agents), session, journal) == Err(r.error)
    {
      for i := 0 to |journal|
        invariant Replay(old(agents), session, journal[..i]) == Ok(agents)
      {
        assert journal[..i + 1] == journal[..i] + [journal[i]];
        ReplayConcat(old(agents), session, journal[..i], [journal[i]]);
        assert Replay(agents, session, [journal[i]]) ==
               match ReplayOne(agents, session, journal[i]) case Err(x) => Err(x) case Ok(n) => Replay(n, session, [journal[i]][1..]);
        match ReplayOne(agents, session, journal[i]) {
          case Err(x) =>
            ReplayConcat(old(agents), session, journal[..i + 1], journal[i + 1..]);
            assert journal == journal[..i + 1] + journal[i + 1..];
            return Err(x);
          case Ok(next) => agents := next;
        }
      }
      assert journal[..|journal|] == journal;
      return Ok(());
    }

    method InterruptOne(id: string, at: nat, accept: Event -> bool) returns (r: Result<()>)
      requires id in agents
      modifies this`agents, this`journal, this`history
      ensures id in agents && agents == old(agents)[id := agents[id]]
      ensures old(Valid()) ==>
                && Valid()
                && agents[id] == (if r.Ok? then Interruption(old(agents)[id], at) else old(agents)[id])
                && (r.Err? ==> r.error == StoreRefused && Refuses(accept))
      ensures Terminal(old(agents)[id].state) ==> r.Ok? && agents == old(agents) && journal == old(journal) && history == old(history)
    {
      var s := agents[id];
      if s.session != session || Terminal(s.state) {
        if Valid() { TableIsFiled(session, agents, history, id); }
        return Ok(());
      }
      if Valid() {
        TableIsFiled(session, agents, history, id);
        InterruptionIsApplied(s, at);
      }
      var moved := PersistTransition(id, AgentInterrupted, at, INTERRUPT_REASON, accept);
      r := if moved.Ok? then Ok(()) else Err(moved.error);
    }

    /** Interrupts every live agent, in any order. */
    method InterruptLive(at: nat, accept: Event -> bool) returns (r: Result<()>)
      modifies this`agents, this`journal, this`history
      ensures old(Valid()) ==> Valid()
      ensures old(Valid()) && r.Ok? ==> InterruptedFrom(old(agents), agents, at)
      ensures old(Valid()) && r.Err? ==> r.error == StoreRefused && Refuses(accept)
      ensures old(AllTerminal(agents)) ==> r.Ok? && agents == old(agents) && journal == old(journal) && history == old(history)
    {
      ghost var was, kept, still := agents, Valid(), AllTerminal(agents);
      var ids := agents.Keys;
      while ids != {}
        invariant ids <= agents.Keys == was.Keys
        invariant kept ==> Valid() && PartlyInterrupted(was, agents, ids, at)
        invariant still ==> agents == was && journal == old(journal) && history == old(history)
        decreases ids
      {
        var id :| id in ids;
        ghost var before := agents;
        assert still ==> Terminal(was[id].state);
        r := InterruptOne(id, at, accept);
        if r.Err? { return; }
        if kept { PartStep(was, before, agents, ids, id, at); }
        ids := ids - {id};
      }
      if kept { PartDone(was, agents, at); }
      return Ok(());
    }

    /** The snapshot loop of recovery. */
    method InstallSnapshot()
      modifies this`agents
      ensures agents == if snapshot.Some? then InstallAll(old(agents), session, snapshot.value) else old(agents)
    {
      if snapshot.Some? {
        for i := 0 to |snapshot.value|
          invariant agents == InstallAll(old(agents), session, snapshot.value[..i])
        {
          agents := InstallOne(agents, session, snapshot.value[i]);
          assert snapshot.value[..i + 1][..i] == snapshot.value[..i];
        }
        assert snapshot.value[..|snapshot.value|] == snapshot.value;
      }
    }

    /** Snapshot plus journal, read into an empty table, give back the state of the whole history. */
    method Rebuild() returns (r: Result<()>)
      modifies this`agents
      ensures old(Durable() && agents == map[]) ==> r.Ok? && Valid()
    {
      InstallSnapshot();
      if old(Durable() && agents == map[]) {
        assert history[..0] == [];
        SnapshotPlusSuffixRebuilds(session, history, taken, dropped, agents);
        ReplayFiled(map[], session, history);
      }
      r := ReplayJournal();
      if old(Durable() && agents == map[]) {
        forall id <- agents ensures SameStatus(agents[id], HistoryState(session, history).value[id]) {}
      }
    }

    /** Rebuild from the durable part, then interrupt whatever was live. Into an empty table the
        result is the state of the whole history with every live agent interrupted. */
    method RecoverLifecycle(at: nat, accept: Event -> bool) returns (r: Result<()>)
      modifies this`agents, this`journal, this`history
      ensures old(Durable() && agents == map[]) ==>
                && Durable() && HistoryState(session, old(history)).Ok?
                && (r.Ok? ==> Valid() && AllTerminal(agents)
                              && InterruptedFrom(HistoryState(session, old(history)).value, agents, at))
                && (r.Err? ==> r.error == StoreRefused && Refuses(accept))
                && (AllTerminal(HistoryState(session, old(history)).value) ==> r.Ok? && journal == old(journal) && history == old(history))
    {
      r := Rebuild();
      if r.Err? { return; }
      ghost var replayed := agents;
      if old(Durable() && agents == map[]) { TerminalUpToTask(replayed, HistoryState(session, history).value); }
      r := InterruptLive(at, accept);
      if old(Durable() && agents == map[]) && r.Ok? {
        InterruptedUpToTask(replayed, HistoryState(session, old(history)).value, agents, at);
      }
    }

    /** Crash and recover once more when every agent is terminal, as after any recovery: nothing
        is appended, whatever the store would accept, and the table comes back. */
    method RecoverAgain(at: nat, accept: Event -> bool) returns (r: Result<()>)
      requires Valid() && AllTerminal(agents)
      modifies this`agents, this`journal, this`history
      ensures r.Ok? && Valid() && Same(agents, old(agents))
      ensures journal == old(journal) && history == old(history)
    {
      ghost var table, rebuilt := agents, HistoryState(session, history).value;
      Restart();
      TerminalUpToTask(table, rebuilt);
      r := RecoverLifecycle(at, accept);
      forall id <- agents ensures SameStatus(agents[id], table[id]) {
        assert SameStatus(agents[id], Interruption(rebuilt[id], at));
        assert SameStatus(table[id], rebuilt[id]);
      }
    }
  }

  // ---------- the journal a cancelled resume leaves behind ----------

  lemma {:induction false} CancelIsRejected(agents: Agents, session: string, id: string, at: nat)
    requires id in agents && agents[id].id == id && !Blank(id) && agents[id].session == session && agents[id].state == Resuming
    ensures ReplayOne(agents, session, CancelEvent(agents[id], at)) == Err(InvalidTransition(Resuming, Canceling))
  {
  }

  /** A cancel event appended for a resuming agent stops recovery of the whole session: replay of
      every journal suffix over any snapshot taken before it ends with the same edge error. Only a
      later snapshot that represents the event, or a dropped journal, lifts this. The cancels of a
      parent's children and of a session's agents append the same event. */
  lemma {:induction false} CancelWhileResumingPoisonsTheJournal(session: string, history: seq<Event>, taken: nat, from: nat, snapshot: Agents, id: string, at: nat)
    requires session != "" && from <= taken <= |history|
    requires HistoryState(session, history).Ok? && HistoryState(session, history[..taken]).Ok?
    requires Same(snapshot, HistoryState(session, history[..taken]).value)
    requires id in HistoryState(session, history).value && HistoryState(session, history).value[id].state == Resuming
    ensures var e := CancelEvent(HistoryState(session, history).value[id], at);
            Replay(snapshot, session, (history + [e])[from..]) == Err(InvalidTransition(Resuming, Canceling))
  {
    var agents := HistoryState(session, history).value;
    var e := CancelEvent(agents[id], at);
    ReplayFiled(map[], session, history);
    CancelIsRejected(agents, session, id, at);
    HistoryAppend(session, history, agents, e);
    assert (history + [e])[..taken] == history[..taken];
    SnapshotPlusSuffixRebuilds(session, history + [e], taken, from, snapshot);
  }

  lemma {:induction false} ReplayFirst(agents: Agents, session: string, e: Event, rest: seq<Event>, next: Agents)
    requires ReplayOne(agents, session, e) == Ok(next)
    ensures Replay(agents, session, [e] + rest) == Replay(next, session, rest)
  {
    assert ([e] + rest)[1..] == rest;
  }

  predicate JustQueued(s: Status) {
    && s.session != "" && !Blank(s.id) && s.state == Queued && s.version == 1
    && s.startedAt == 0 && s.finishedAt == 0 && s.reason == "" && s.resumedAs == ""
  }

  /** An interrupted record some caller asked to resume. */
  function Asked(s: Status): Status {
    s.(state := Resuming, reason := "resume requested", version := s.version + 1)
  }

  /** An agent queued, interrupted by a restart, then asked to resume. */
  function ResumingHistory(waiting: Status, at: nat): seq<Event> {
    [QueuedEvent(waiting.session, waiting.id, waiting.parent, waiting.profile, waiting.task, waiting.resumedFrom, waiting.startTime),
     NextEvent(waiting, AgentInterrupted, at, INTERRUPT_REASON),
     NextEvent(Interruption(waiting, at), ResumeRequested, at, "resume requested")]
  }

  lemma {:induction false} QueuedIsCreated(s: Status)
    requires JustQueued(s)
    ensures ReplayOne(map[], s.session, QueuedEvent(s.session, s.id, s.parent, s.profile, s.task, s.resumedFrom, s.startTime)) == Ok(map[s.id := s])
  {
  }

  lemma {:induction false} AskedIsApplied(s: Status, at: nat)
    requires s.state == Interrupted && s.id != ""
    ensures ApplyEvent(s, NextEvent(s, ResumeRequested, at, "resume requested")) == Ok(Asked(s))
  {
  }

  lemma {:induction false} NextIsApplied(s: Status, e: Event, next: Status)
    requires !Blank(s.id) && e.agent == s.id && e.session == s.session && e.version == s.version + 1 && ApplyEvent(s, e) == Ok(next)
    ensures ReplayOne(map[s.id := s], s.session, e) == Ok(map[s.id := next])
  {
    assert map[s.id := s][s.id := next] == map[s.id := next];
  }

  lemma {:induction false} ResumingIsReached(waiting: Status, at: nat)
    requires JustQueued(waiting)
    ensures HistoryState(waiting.session, ResumingHistory(waiting, at)) == Ok(map[waiting.id := Asked(Interruption(waiting, at))])
  {
    var session, interrupted := waiting.session, Interruption(waiting, at);
    var e, f, g := ResumingHistory(waiting, at)[0], NextEvent(waiting, AgentInterrupted, at, INTERRUPT_REASON), NextEvent(interrupted, ResumeRequested, at, "resume requested");
    assert ResumingHistory(waiting, at) == [e] + ([f] + ([g] + []));
    QueuedIsCreated(waiting);
    InterruptionIsApplied(waiting, at);
    NextIsApplied(waiting, f, interrupted);
    AskedIsApplied(interrupted, at);
    NextIsApplied(interrupted, g, Asked(interrupted));
    ReplayFirst(map[], session, e, [f] + ([g] + []), map[waiting.id := waiting]);
    ReplayFirst(map[waiting.id := waiting], session, f, [g] + [], map[waiting.id := interrupted]);
    ReplayFirst(map[waiting.id := interrupted], session, g, [], map[waiting.id := Asked(interrupted)]);
  }

  /** The shortest way there: queued, interrupted by a restart, asked to resume, cancelled. */
  lemma {:induction false} CancelWhileResumingExample(waiting: Status, at: nat)
    requires JustQueued(waiting)
    ensures var history, resuming := ResumingHistory(waiting, at), Asked(Interruption(waiting, at));
            && HistoryState(waiting.session, history) == Ok(map[waiting.id := resuming]) && resuming.state == Resuming
            && HistoryState(waiting.session, history + [CancelEvent(resuming, at)]) == Err(InvalidTransition(Resuming, Canceling))
  {
    var history, cancel := ResumingHistory(waiting, at), CancelEvent(Asked(Interruption(waiting, at)), at);
    ResumingIsReached(waiting, at);
    assert HistoryState(waiting.session, history[..0]) == Ok(map[]);
    CancelWhileResumingPoisonsTheJournal(waiting.session, history, 0, 0, map[], waiting.id, at);
    assert (history + [cancel])[0..] == history + [cancel];
  }
}
