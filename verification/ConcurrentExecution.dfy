/** Parallel tool dispatch (internal/engine/turn/tool_execution.go): a sender, a pool of workers,
    one unbuffered job channel, one result channel with room for every call, and cancellation.
    Rendezvous, completions, exits and the cancellation are the atomic steps. */
module ConcurrentExecution {

  datatype Worker = Idle | Busy(job: nat) | Exited

  /** The sender offers call `next`, or has closed the job channel. */
  datatype Sender = Offering(next: nat) | Closed(sent: nat)

  /** `results` is the buffered result channel, in arrival order. */
  datatype State = State(calls: nat, workers: seq<Worker>, sender: Sender, results: seq<nat>, cancelled: bool)

  datatype Action =
    | Cancel
    | HandOver(worker: nat)      // the sender's call meets an idle worker
    | StopSending                // ctx.Done() chosen by the sender, or every call sent
    | Complete(worker: nat)      // the running call returns and its result is queued
    | Exit(worker: nat)          // ctx.Done() chosen by a worker, or the job channel closed

  function Sent(s: State): nat {
    match s.sender case Offering(n) => n case Closed(n) => n
  }

  predicate Enabled(s: State, a: Action) {
    match a
    case Cancel => !s.cancelled
    case HandOver(w) => w < |s.workers| && s.workers[w].Idle? && s.sender.Offering? && s.sender.next < s.calls
    case StopSending => s.sender.Offering? && (s.cancelled || s.sender.next == s.calls)
    case Complete(w) => w < |s.workers| && s.workers[w].Busy? && |s.results| < s.calls
    case Exit(w) => w < |s.workers| && s.workers[w].Idle? && (s.cancelled || s.sender.Closed?)
  }

  function Apply(s: State, a: Action): State
    requires Enabled(s, a)
  {
    match a
    case Cancel => s.(cancelled := true)
    case HandOver(w) => s.(workers := s.workers[w := Busy(s.sender.next)], sender := Offering(s.sender.next + 1))
    case StopSending => s.(sender := Closed(s.sender.next))
    case Complete(w) => s.(workers := s.workers[w := Idle], results := s.results + [s.workers[w].job])
    case Exit(w) => s.(workers := s.workers[w := Exited])
  }

  function Start(calls: nat, workers: nat): State {
    State(calls, seq(workers, _ => Idle), Offering(0), [], false)
  }

  /** The point where workers.Wait() returns. */
  predicate Finished(s: State) {
    s.sender.Closed? && forall w <- s.workers :: w.Exited?
  }

  /** How often a call is running or has its result queued. */
  function Running(ws: seq<Worker>, job: nat): nat {
    if ws == [] then 0 else (if ws[0] == Busy(job) then 1 else 0) + Running(ws[1..], job)
  }

  function BusyCount(ws: seq<Worker>): nat {
    if ws == [] then 0 else (if ws[0].Busy? then 1 else 0) + BusyCount(ws[1..])
  }

  function Executions(s: State, job: nat): nat {
    Running(s.workers, job) + multiset(s.results)[job]
  }

  /** Every call already sent is running or finished exactly once, no other call is. */
  ghost predicate Inv(s: State) {
    && Sent(s) <= s.calls
    && (forall job: nat :: Executions(s, job) == if job < Sent(s) then 1 else 0)
    && BusyCount(s.workers) + |s.results| == Sent(s)
    && (s.sender.Closed? && !s.cancelled ==> Sent(s) == s.calls)
    && (!s.cancelled && s.sender.Offering? ==> forall w <- s.workers :: !w.Exited?)
  }

  lemma {:induction false} SwapWorker(ws: seq<Worker>, i: nat, w: Worker, job: nat)
    requires i < |ws|
    ensures Running(ws[i := w], job) == Running(ws, job) - (if ws[i] == Busy(job) then 1 else 0) + (if w == Busy(job) then 1 else 0)
    ensures BusyCount(ws[i := w]) == BusyCount(ws) - (if ws[i].Busy? then 1 else 0) + (if w.Busy? then 1 else 0)
    ensures Running(ws, job) >= (if ws[i] == Busy(job) then 1 else 0)
  {
    if i == 0 {
      assert ws[0 := w][1..] == ws[1..];
    } else {
      assert ws[i := w][1..] == ws[1..][i - 1 := w];
      SwapWorker(ws[1..], i - 1, w, job);
    }
  }

  lemma {:induction false} IdleStart(ws: seq<Worker>, job: nat)
    requires forall w <- ws :: w.Idle?
    ensures Running(ws, job) == 0 && BusyCount(ws) == 0
  {
    if ws == [] {
    } else {
      assert ws[0] in ws; IdleStart(ws[1..], job);
    }
  }

  lemma {:induction false} StartInv(calls: nat, workers: nat)
    ensures Inv(Start(calls, workers))
  {
    forall job: nat ensures Executions(Start(calls, workers), job) == 0 {
      IdleStart(Start(calls, workers).workers, job);
    }
    IdleStart(Start(calls, workers).workers, 0);
  }

  lemma {:induction false} StepKeepsInv(s: State, a: Action)
    requires Inv(s) && Enabled(s, a)
    ensures Inv(Apply(s, a))
  {
    var t := Apply(s, a);
    if a.HandOver? || a.Complete? || a.Exit? {
      SwapWorker(s.workers, a.worker, t.workers[a.worker], 0);
      assert forall w :: w in t.workers ==> w in s.workers || w == t.workers[a.worker];
    }
    forall job: nat ensures Executions(t, job) == if job < Sent(t) then 1 else 0 {
      assert Executions(s, job) == if job < Sent(s) then 1 else 0;
      if a.HandOver? || a.Complete? || a.Exit? {
        SwapWorker(s.workers, a.worker, t.workers[a.worker], job);
      }
    }
  }

  ghost predicate IsRun(run: seq<State>, actions: seq<Action>, calls: nat, workers: nat) {
    && |run| == |actions| + 1 && run[0] == Start(calls, workers)
    && forall i :: 0 <= i < |actions| ==> Enabled(run[i], actions[i]) && run[i + 1] == Apply(run[i], actions[i])
  }

  lemma {:induction false} RunKeepsInv(run: seq<State>, actions: seq<Action>, calls: nat, workers: nat, i: nat)
    requires IsRun(run, actions, calls, workers) && i < |run|
    ensures Inv(run[i]) && run[i].calls == calls && |run[i].workers| == workers
  {
    if i == 0 {
      StartInv(calls, workers);
    } else {
      RunKeepsInv(run, actions, calls, workers, i - 1);
      StepKeepsInv(run[i - 1], actions[i - 1]);
    }
  }

  // ---------- at most once, never stuck, always over ----------

  /** No call is ever executed twice, at any moment of any interleaving. */
  lemma {:induction false} EachCallAtMostOnce(run: seq<State>, actions: seq<Action>, calls: nat, workers: nat, i: nat, job: nat)
    requires IsRun(run, actions, calls, workers) && i < |run|
    ensures Executions(run[i], job) <= 1 && (job >= calls ==> Executions(run[i], job) == 0)
  {
    RunKeepsInv(run, actions, calls, workers, i);
    assert Executions(run[i], job) == if job < Sent(run[i]) then 1 else 0;
  }

  lemma {:induction false} BusyIsPositive(ws: seq<Worker>, i: nat)
    requires i < |ws| && ws[i].Busy?
    ensures BusyCount(ws) > 0
  {
    if i == 0 {
    } else {
      BusyIsPositive(ws[1..], i - 1);
    }
  }

  /** With at least one worker, some goroutine can step until workers.Wait() returns, whether or
      not the context is ever cancelled. */
  lemma {:induction false} NoDeadlock(run: seq<State>, actions: seq<Action>, calls: nat, workers: nat, i: nat) returns (a: Action)
    requires IsRun(run, actions, calls, workers) && workers >= 1 && i < |run| && !Finished(run[i])
    ensures !a.Cancel? && Enabled(run[i], a)
  {
    RunKeepsInv(run, actions, calls, workers, i);
    var s := run[i];
    if w :| 0 <= w < workers && s.workers[w].Busy? {
      BusyIsPositive(s.workers, w);
      a := Complete(w);
    } else if s.sender.Closed? {
      var w :| 0 <= w < workers && !s.workers[w].Exited?;
      a := Exit(w);
    } else if s.cancelled || s.sender.next == calls {
      a := StopSending;
    } else {
      assert s.workers[0] in s.workers;
      a := HandOver(0);
    }
  }

  function WorkerRank(w: Worker): nat {
    match w case Exited => 0 case Idle => 1 case Busy(_) => 2
  }

  function Ranks(ws: seq<Worker>): nat {
    if ws == [] then 0 else WorkerRank(ws[0]) + Ranks(ws[1..])
  }

  /** Strictly decreased by every step: two steps per unsent call, worker positions, the close, the cancel. */
  function Work(s: State): int {
    2 * (s.calls - Sent(s)) + Ranks(s.workers) + (if s.sender.Offering? then 1 else 0) + (if s.cancelled then 0 else 1)
  }

  lemma {:induction false} SwapRank(ws: seq<Worker>, i: nat, w: Worker)
    requires i < |ws|
    ensures Ranks(ws[i := w]) == Ranks(ws) - WorkerRank(ws[i]) + WorkerRank(w)
  {
    if i == 0 {
      assert ws[0 := w][1..] == ws[1..];
    } else {
      assert ws[i := w][1..] == ws[1..][i - 1 := w];
      SwapRank(ws[1..], i - 1, w);
    }
  }

  lemma {:induction false} IdleRanks(ws: seq<Worker>)
    requires forall w <- ws :: w.Idle?
    ensures Ranks(ws) == |ws|
  {
    if ws == [] {
    } else {
      IdleRanks(ws[1..]);
    }
  }

  lemma {:induction false} StepWorks(s: State, a: Action)
    requires Inv(s) && Enabled(s, a)
    ensures 0 <= Work(Apply(s, a)) < Work(s)
  {
    var t := Apply(s, a);
    if a.HandOver? || a.Complete? || a.Exit? { SwapRank(s.workers, a.worker, t.workers[a.worker]); }
  }

  lemma {:induction false} RunIsBounded(run: seq<State>, actions: seq<Action>, calls: nat, workers: nat, i: nat)
    requires IsRun(run, actions, calls, workers) && i < |run|
    ensures i + Work(run[i]) <= 2 * calls + workers + 2 && Work(run[i]) >= 0
  {
    RunKeepsInv(run, actions, calls, workers, i);
    if i == 0 {
      IdleRanks(run[0].workers);
    } else {
      RunIsBounded(run, actions, calls, workers, i - 1);
      RunKeepsInv(run, actions, calls, workers, i - 1);
      StepWorks(run[i - 1], actions[i - 1]);
    }
  }

  /** No interleaving takes more than 2·calls + workers + 2 steps. */
  lemma {:induction false} EveryRunEnds(run: seq<State>, actions: seq<Action>, calls: nat, workers: nat)
    requires IsRun(run, actions, calls, workers)
    ensures |actions| <= 2 * calls + workers + 2
  {
    RunIsBounded(run, actions, calls, workers, |run| - 1);
  }

  // ---------- what the caller gets ----------

  datatype Entry = Executed(call: nat) | Cancelled(call: nat) | Unset

  /** The collection after workers.Wait(): results land at their index, and when the context is
      done every other entry is marked cancelled. */
  method Collect(s: State) returns (entries: seq<Entry>)
    requires forall job <- s.results :: job < s.calls
    ensures |entries| == s.calls
    ensures forall job :: 0 <= job < s.calls ==>
              entries[job] == if job in s.results then Executed(job) else if s.cancelled then Cancelled(job) else Unset
  {
    entries := seq(s.calls, _ => Unset);
    for i := 0 to |s.results|
      invariant |entries| == s.calls
      invariant forall job :: 0 <= job < s.calls ==> entries[job] == if job in s.results[..i] then Executed(job) else Unset
    {
      assert s.results[i] in s.results;
      assert s.results[..i + 1] == s.results[..i] + [s.results[i]];
      entries := entries[s.results[i] := Executed(s.results[i])];
    }
    assert s.results[..|s.results|] == s.results;
    if s.cancelled {
      for j := 0 to s.calls
        invariant |entries| == s.calls
        invariant forall job :: 0 <= job < s.calls ==>
          entries[job] == if job in s.results then Executed(job) else if job < j then Cancelled(job) else Unset
      {
        if entries[j].Unset? { entries := entries[j := Cancelled(j)]; }
      }
    }
  }

  lemma {:induction false} NoBusyNothingRuns(ws: seq<Worker>, job: nat)
    requires forall w <- ws :: w.Exited?
    ensures Running(ws, job) == 0
  {
    if ws == [] {
    } else {
      assert ws[0] in ws; NoBusyNothingRuns(ws[1..], job);
    }
  }

  /** When the run is over the results are exactly the calls handed to workers, each once: all of
      them unless the context was cancelled, otherwise a prefix of the call order. */
  lemma {:induction false} FinishedRunResults(run: seq<State>, actions: seq<Action>, calls: nat, workers: nat)
    requires IsRun(run, actions, calls, workers) && Finished(run[|run| - 1])
    ensures var s := run[|run| - 1];
            && (forall job: nat :: multiset(s.results)[job] == if job < Sent(s) then 1 else 0)
            && (forall job <- s.results :: job < s.calls)
            && s.calls == calls && Sent(s) <= calls && (!s.cancelled ==> Sent(s) == calls)
  {
    var s := run[|run| - 1];
    RunKeepsInv(run, actions, calls, workers, |run| - 1);
    forall job: nat ensures multiset(s.results)[job] == if job < Sent(s) then 1 else 0 {
      NoBusyNothingRuns(s.workers, job);
      assert Executions(s, job) == if job < Sent(s) then 1 else 0;
    }
    forall job | job in s.results ensures job < s.calls {
      assert multiset(s.results)[job] > 0;
    }
  }

  /** The context is done exactly when somebody cancelled it. */
  lemma {:induction false} CancelledIffAsked(run: seq<State>, actions: seq<Action>, calls: nat, workers: nat, i: nat)
    requires IsRun(run, actions, calls, workers) && i < |run|
    ensures run[i].cancelled <==> Cancel in actions[..i]
  {
    if i == 0 {
    } else {
      CancelledIffAsked(run, actions, calls, workers, i - 1);
      assert actions[..i] == actions[..i - 1] + [actions[i - 1]];
    }
  }

  /** Without a cancellation every call has been executed exactly once when the workers are gone. */
  lemma {:induction false} EveryCallOnceUnlessCancelled(run: seq<State>, actions: seq<Action>, calls: nat, workers: nat, job: nat)
    requires IsRun(run, actions, calls, workers) && Cancel !in actions && job < calls
    requires run[|run| - 1].sender.Closed? && forall w <- run[|run| - 1].workers :: w.Exited?
    ensures multiset(run[|run| - 1].results)[job] == 1 && |run[|run| - 1].workers| == workers
  {
    CancelledIffAsked(run, actions, calls, workers, |run| - 1);
    assert actions[..|actions|] == actions;
    FinishedRunResults(run, actions, calls, workers);
    RunKeepsInv(run, actions, calls, workers, |run| - 1);
  }

  /** One entry per call in input order: the entry says executed exactly for the calls that ran,
      and cancelled, never unset, for all the others. */
  method ExecuteConcurrent(ghost run: seq<State>, ghost actions: seq<Action>, last: State, calls: nat, workers: nat)
      returns (entries: seq<Entry>)
    requires IsRun(run, actions, calls, workers) && last == run[|run| - 1] && Finished(last)
    ensures |entries| == calls
    ensures forall job: nat :: job < calls ==> entries[job] == if job < Sent(last) then Executed(job) else Cancelled(job)
    ensures !last.cancelled ==> forall job: nat :: job < calls ==> entries[job] == Executed(job)
  {
    FinishedRunResults(run, actions, calls, workers);
    entries := Collect(last);
    forall job: nat | job < calls ensures entries[job] == if job < Sent(last) then Executed(job) else Cancelled(job) {
      assert multiset(last.results)[job] == if job < Sent(last) then 1 else 0;
      assert job in last.results <==> multiset(last.results)[job] > 0;
    }
  }
}
