/** The turn-scoped result mailbox (internal/feature/agent/result_stream.go): a bounded,
    truncating event log with caller-owned cursors, and the notify channel its waiters sleep on. */
module ResultStream {

  const MAX_MAILBOX_EVENTS := 128

  datatype ResultRef = ResultRef(session: string, agent: string, version: nat)

  predicate ValidRef(r: ResultRef) {
    r.agent != "" && r.version > 0
  }

  /** A result-available event; a zero version carries no reference. */
  datatype Event = Event(ref: ResultRef)

  datatype Record = Record(seqNo: nat, event: Event)

  function Max(a: nat, b: nat): nat {
    if a < b then b else a
  }

  /** The events a mailbox of that capacity still holds after the whole log was recorded. */
  function Kept(log: seq<Event>): (k: seq<Record>)
    ensures |k| == if |log| <= MAX_MAILBOX_EVENTS then |log| else MAX_MAILBOX_EVENTS
  {
    var n := if |log| <= MAX_MAILBOX_EVENTS then |log| else MAX_MAILBOX_EVENTS;
    seq(n, i requires 0 <= i < n => Record(|log| - n + i + 1, log[|log| - n + i]))
  }

  /** Index of the oldest event still held. */
  function Oldest(log: seq<Event>): nat {
    if |log| <= MAX_MAILBOX_EVENTS then 0 else |log| - MAX_MAILBOX_EVENTS
  }

  /** The held events past a cursor, looking no further than `end`. */
  function PastCursor(log: seq<Event>, after: nat, end: nat): (out: seq<Event>)
    requires end <= |log|
    ensures out == [] <==> end <= Max(after, Oldest(log))
  {
    var from := Max(after, Oldest(log));
    if end <= from then [] else log[from..end]
  }

  lemma {:induction false} PastCursorGrows(log: seq<Event>, after: nat, end: nat)
    requires Oldest(log) <= end < |log|
    ensures PastCursor(log, after, end + 1) == PastCursor(log, after, end) + if end >= after then [log[end]] else []
  {
    var from := Max(after, Oldest(log));
    if end > from { assert log[from..end + 1] == log[from..end] + [log[end]]; }
    if end == from { assert log[from..end + 1] == [log[end]]; }
  }

  lemma {:induction false} PastCursorAll(log: seq<Event>, after: nat)
    ensures PastCursor(log, after, |log|) == if after < |log| then log[Max(after, Oldest(log))..] else []
  {
    if after < |log| { assert log[Max(after, Oldest(log))..|log|] == log[Max(after, Oldest(log))..]; }
  }

  lemma {:induction false} KeptAt(log: seq<Event>, i: nat)
    requires i < |Kept(log)|
    ensures Oldest(log) + |Kept(log)| == |log| && Kept(log)[i] == Record(Oldest(log) + i + 1, log[Oldest(log) + i])
  {
  }

  method SelectAfter(events: seq<Record>, ghost log: seq<Event>, after: nat) returns (out: seq<Event>, next: nat)
    requires events == Kept(log)
    ensures out == PastCursor(log, after, |log|) && next == if out == [] then after else |log|
  {
    out, next := [], after;
    for i := 0 to |events|
      invariant out == PastCursor(log, after, Oldest(log) + i)
      invariant next == if out == [] then after else Oldest(log) + i
    {
      KeptAt(log, i);
      PastCursorGrows(log, after, Oldest(log) + i);
      if events[i].seqNo > after {
        out, next := out + [events[i].event], events[i].seqNo;
      }
    }
  }

  class Mailbox {
    var nextSeq: nat
    var events: seq<Record>
    var notify: nat        // the current notify channel; every earlier one is closed
    ghost var log: seq<Event>

    ghost predicate Valid()
      reads this
    {
      nextSeq == |log| && notify == |log| && events == Kept(log)
    }

    constructor ()
      ensures Valid() && log == []
    {
      nextSeq, events, notify, log := 0, [], 0, [];
    }

    /** Append, drop the oldest beyond capacity, wake every waiter. */
    method RecordEvent(e: Event)
      requires Valid()
      modifies this
      ensures Valid() && log == old(log) + [e]
    {
      nextSeq := nextSeq + 1;
      events := events + [Record(nextSeq, e)];
      log := log + [e];
      if |events| > MAX_MAILBOX_EVENTS {
        var drop := |events| - MAX_MAILBOX_EVENTS;
        events := events[drop..];
      }
      notify := notify + 1;
      assert events == Kept(log);
    }

    /** Everything still held after the cursor; reading moves nobody's position. */
    method EventsAfter(after: nat) returns (out: seq<Event>, next: nat, truncated: bool)
      requires Valid()
      ensures out == if after < |log| then log[Max(after, Oldest(log))..] else []
      ensures next == if out != [] then |log| else after
      ensures truncated <==> after < Oldest(log)
    {
      PastCursorAll(log, after);
      out, next, truncated := [], after, false;
      if |events| == 0 { return; }
      KeptAt(log, 0);
      truncated := after + 1 < events[0].seqNo;
      out, next := SelectAfter(events, log, after);
    }

    /** One look at the mailbox: a batch, or the channel to sleep on. */
    method Consume(after: nat) returns (out: seq<Event>, next: nat, truncated: bool, channel: nat)
      requires Valid()
      ensures out == if after < |log| then log[Max(after, Oldest(log))..] else []
      ensures next == if out != [] then |log| else after
      ensures out != [] ==> (truncated <==> after < Oldest(log))
      ensures out == [] ==> channel == notify <= after && !truncated
    {
      out, next, truncated := EventsAfter(after);
      channel := notify;
      if out == [] { truncated := false; }
    }
  }

  // ---------- waiters ----------

  /** `recorded` counts recorded events, which is also the current channel. A waiter sleeps on
      the channel it saw, for events past its cursor. */
  datatype Waiter = Sleeping(after: nat, channel: nat) | Awake
  datatype WaitState = WaitState(recorded: nat, waiters: map<nat, Waiter>)
  datatype WaitAction = RecordOne | Look(waiter: nat, after: nat) | Wake(waiter: nat) | TimeOut(waiter: nat)

  predicate ChannelClosed(s: WaitState, channel: nat) {
    channel < s.recorded
  }

  predicate Enabled(s: WaitState, a: WaitAction) {
    match a
    case RecordOne => true
    case Look(w, _) => w in s.waiters ==> s.waiters[w].Awake?
    case Wake(w) => w in s.waiters && s.waiters[w].Sleeping? && ChannelClosed(s, s.waiters[w].channel)
    case TimeOut(w) => w in s.waiters && s.waiters[w].Sleeping?
  }

  function Apply(s: WaitState, a: WaitAction): WaitState
    requires Enabled(s, a)
  {
    match a
    case RecordOne => s.(recorded := s.recorded + 1)
    case Look(w, after) => s.(waiters := s.waiters[w := if after < s.recorded then Awake else Sleeping(after, s.recorded)])
    case Wake(w) => s.(waiters := s.waiters[w := Awake])
    case TimeOut(w) => s.(waiters := s.waiters[w := Awake])
  }

  ghost predicate IsRun(run: seq<WaitState>, actions: seq<WaitAction>) {
    && |run| == |actions| + 1 && run[0].waiters == map[]
    && forall i :: 0 <= i < |actions| ==> Enabled(run[i], actions[i]) && run[i + 1] == Apply(run[i], actions[i])
  }

  predicate SleepersAreCurrent(s: WaitState) {
    forall w <- s.waiters :: s.waiters[w].Sleeping? ==> s.waiters[w].channel <= s.waiters[w].after
  }

  lemma {:induction false} RunKeepsSleepersCurrent(run: seq<WaitState>, actions: seq<WaitAction>, i: nat)
    requires IsRun(run, actions) && i < |run|
    ensures SleepersAreCurrent(run[i])
  {
    if i == 0 {
    } else {
      RunKeepsSleepersCurrent(run, actions, i - 1);
      var s, t := run[i - 1], run[i];
      assert t == Apply(s, actions[i - 1]);
    }
  }

  /** No lost wakeup: whenever an event past a sleeper's cursor exists, the channel it sleeps on
      is already closed, so it can wake. */
  lemma {:induction false} NoLostWakeup(run: seq<WaitState>, actions: seq<WaitAction>, i: nat, w: nat)
    requires IsRun(run, actions) && i < |run|
    requires w in run[i].waiters && run[i].waiters[w].Sleeping? && run[i].waiters[w].after < run[i].recorded
    ensures Enabled(run[i], Wake(w))
  {
    RunKeepsSleepersCurrent(run, actions, i);
  }

  /** How many events were recorded in the first n steps. */
  function Recorded(actions: seq<WaitAction>, n: nat): nat
    requires n <= |actions|
  {
    if n == 0 then 0 else Recorded(actions, n - 1) + if actions[n - 1] == RecordOne then 1 else 0
  }

  lemma {:induction false} RecordedCounts(run: seq<WaitState>, actions: seq<WaitAction>, i: nat, j: nat)
    requires IsRun(run, actions) && i <= j < |run|
    ensures run[j].recorded - run[i].recorded == Recorded(actions, j) - Recorded(actions, i) >= 0
  {
    if i == j {
    } else {
      RecordedCounts(run, actions, i, j - 1);
    }
  }

  predicate Names(a: WaitAction, w: nat) {
    (a.Look? || a.Wake? || a.TimeOut?) && a.waiter == w
  }

  /** A sleeper fell asleep at its last look, which saw nothing past its cursor. */
  lemma {:induction false} SleeperSawNothing(run: seq<WaitState>, actions: seq<WaitAction>, i: nat, w: nat) returns (j: nat)
    requires IsRun(run, actions) && i < |run| && w in run[i].waiters && run[i].waiters[w].Sleeping?
    ensures j < i && actions[j] == Look(w, run[i].waiters[w].after) && run[i].waiters[w].after >= run[j].recorded == run[i].waiters[w].channel
    ensures forall k :: j < k < i ==> !Names(actions[k], w)
  {
    if Names(actions[i - 1], w) {
      j := i - 1;
    } else {
      assert run[i].waiters[w] == run[i - 1].waiters[w];
      j := SleeperSawNothing(run, actions, i - 1, w);
    }
  }

  /** A sleeper can wake exactly when an event was recorded since it looked; a look that finds an event
      past its cursor never sleeps; waking and timing out end the sleep of that waiter alone. */
  lemma {:induction false} WakesForNewsOnly(run: seq<WaitState>, actions: seq<WaitAction>, i: nat, w: nat) returns (j: nat)
    requires IsRun(run, actions) && i < |run| && w in run[i].waiters && run[i].waiters[w].Sleeping?
    ensures j < i && actions[j] == Look(w, run[i].waiters[w].after)
    ensures Enabled(run[i], Wake(w)) <==> Recorded(actions, i) > Recorded(actions, j)
    ensures Enabled(run[i], TimeOut(w))
  {
    j := SleeperSawNothing(run, actions, i, w);
    RecordedCounts(run, actions, j, i);
  }

  lemma {:induction false} StepMeans(s: WaitState, w: nat, after: nat)
    ensures Enabled(s, RecordOne) && Apply(s, RecordOne).waiters == s.waiters
    ensures Enabled(s, Look(w, after)) <==> w !in s.waiters || s.waiters[w] == Awake
    ensures Enabled(s, Look(w, after)) ==>
              var t := Apply(s, Look(w, after));
              && t.recorded == s.recorded && w in t.waiters && t.waiters - {w} == s.waiters - {w}
              && (s.recorded > after ==> t.waiters[w] == Awake) && (s.recorded <= after ==> t.waiters[w] == Sleeping(after, s.recorded))
    ensures Enabled(s, TimeOut(w)) <==> w in s.waiters && s.waiters[w] != Awake
    ensures Enabled(s, Wake(w)) <==> w in s.waiters && s.waiters[w] != Awake && s.waiters[w].channel < s.recorded
    ensures Enabled(s, Wake(w)) ==> Apply(s, Wake(w)) == WaitState(s.recorded, s.waiters[w := Awake])
    ensures Enabled(s, TimeOut(w)) ==> Apply(s, TimeOut(w)) == WaitState(s.recorded, s.waiters[w := Awake])
  {
  }

  // ---------- references ----------

  /** A reference is usable when it names an agent and a version. */
  lemma {:induction false} UsableRefs(session: string, agent: string, version: nat)
    ensures ValidRef(ResultRef(session, agent, version)) <==> |agent| > 0 && version >= 1
  {
  }

  /** A mailbox holds the newest 128 events at most. */
  lemma {:induction false} HeldEvents(log: seq<Event>, i: nat)
    requires i < |log|
    ensures i >= Oldest(log) <==> |log| - i <= 128
    ensures Oldest(log) <= i ==> Record(i + 1, log[i]) in Kept(log)
    ensures forall r <- Kept(log) :: 1 <= r.seqNo <= |log| && r.event == log[r.seqNo - 1]
  {
    if Oldest(log) <= i { assert Kept(log)[i - Oldest(log)] == Record(i + 1, log[i]); }
  }
}
