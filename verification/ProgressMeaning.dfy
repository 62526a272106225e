/** What the progress guard counts and when it acts (internal/engine/turn/progress_guard.go), told by the
    fields of calls and results and by the results of a call since the last progress. */
module ProgressMeaning {
  import opened ProgressGuard

  // ---------- which calls and results count as the same ----------

  /** Calls are the same when name and arguments are, whatever their ids. */
  lemma {:induction false} SameKeyMeans(a: Call, b: Call)
    ensures KeyOf(a) == KeyOf(b) <==> a.name == b.name && a.arguments == b.arguments
  {
  }

  /** Successes are the same when their content is; failures when code, retryability, recovery and
      evidence are, whatever their message; a success is never the same as a failure. */
  lemma {:induction false} SameDigestMeans(a: ToolResult, b: ToolResult)
    ensures DigestOf(a) == DigestOf(b) <==>
            || (a.failure == None && b.failure == None && a.content == b.content)
            || (&& a.failure.Some? && b.failure.Some?
                && a.failure.value.code == b.failure.value.code && a.failure.value.retryable == b.failure.value.retryable
                && a.failure.value.recovery == b.failure.value.recovery && a.failure.value.evidence == b.failure.value.evidence)
  {
  }

  // ---------- what an execution adds to the log ----------

  /** A change that worked outside the task list is progress; every failure, and every result of a reading
      or task-list call, is counted; calls that did not run or are unknown leave no trace. */
  lemma {:induction false} EntryMeans(defs: Definitions, e: Execution)
    ensures e.suppressed || e.call.name !in defs ==> EntryOf(defs, e) == []
    ensures !e.suppressed && e.call.name in defs ==>
              var sem := defs[e.call.name](e.call.arguments);
              var changes := !sem.readOnly && !sem.taskState;
              && (changes && !e.erred ==> EntryOf(defs, e) == [Bump])
              && (changes && e.erred && e.result.failure == None ==> EntryOf(defs, e) == [])
              && (!changes || (e.erred && e.result.failure.Some?) ==>
                    && |EntryOf(defs, e)| == 1 && EntryOf(defs, e)[0].Seen?
                    && EntryOf(defs, e)[0].key.name == e.call.name && EntryOf(defs, e)[0].key.arguments == e.call.arguments
                    && EntryOf(defs, e)[0].digest == DigestOf(e.result) && EntryOf(defs, e)[0].failure == e.result.failure)
  {
  }

  /** The log of a round is what was there, then the entries of its executions in order. */
  lemma {:induction false} LogGrowsInOrder(defs: Definitions, log: seq<Entry>, es: seq<Execution>, e: Execution)
    ensures LogAfter(defs, log, []) == log && log <= LogAfter(defs, log, es)
    ensures LogAfter(defs, log, es + [e]) == LogAfter(defs, log, es) + EntryOf(defs, e)
    decreases |es|
  {
    assert (es + [e])[..|es|] == es;
    if es == [] {
    } else {
      LogGrowsInOrder(defs, log, es[..|es| - 1], es[|es| - 1]);
    }
  }

  // ---------- runs of identical results ----------

  /** The last n results of the call since the last progress exist and are all the same. */
  predicate LastAreSame(log: seq<Entry>, key: Key, n: nat) {
    var rs := Results(log, key);
    n <= |rs| && forall i :: |rs| - n <= i < |rs| ==> rs[i].digest == rs[|rs| - 1].digest
  }

  lemma {:induction false} LastIsTheLastResult(log: seq<Entry>, key: Key)
    ensures Last(log, key) == if Results(log, key) == [] then None else Some(Results(log, key)[|Results(log, key)| - 1])
  {
    if log == [] || log[|log| - 1].Bump? {
    } else {
      LastIsTheLastResult(log[..|log| - 1], key);
    }
  }

  lemma {:induction false} RunMeans(log: seq<Entry>, key: Key, n: nat)
    ensures RunLength(log, key) >= n <==> LastAreSame(log, key, n)
    ensures RunLength(log, key) > 0 <==> Results(log, key) != []
  {
    LastIsTheLastResult(log, key);
    LastIsOfKey(log, key);
    var rs := Results(log, key);
    if rs != [] {
      RunCountsIdenticalResults(log, key, rs[|rs| - 1].digest, rs);
    }
  }

  // ---------- when the guard acts ----------

  /** A result stalls when it is at least the second of a run of identical results that reached the limit
      for its kind, and that limit is set. */
  lemma {:induction false} StallsMeans(log: seq<Entry>, r: ToolResult, key: Key, maxIdentical: int, maxRetryable: int)
    ensures r.failure.Some? && r.failure.value.retryable ==>
              (Stalls(log, r, key, maxIdentical, maxRetryable) <==>
               maxRetryable > 0 && LastAreSame(log, key, if maxRetryable > 2 then maxRetryable else 2))
    ensures !(r.failure.Some? && r.failure.value.retryable) ==>
              (Stalls(log, r, key, maxIdentical, maxRetryable) <==>
               maxIdentical > 0 && LastAreSame(log, key, if maxIdentical > 2 then maxIdentical else 2))
  {
    var limit := if r.failure.Some? && r.failure.value.retryable then maxRetryable else maxIdentical;
    RunMeans(log, key, if limit > 2 then limit else 2);
  }

  /** The next call is cut short after one failure that must not be retried, after a full run of the same
      retryable failure if that limit is set, and after a full run of the same success. */
  lemma {:induction false} ReachedLimitMeans(log: seq<Entry>, key: Key, maxIdentical: nat, maxRetryable: int)
    requires Results(log, key) != [] && Last(log, key).Some? && Last(log, key).value.Seen?
    ensures var last := Results(log, key)[|Results(log, key)| - 1];
            var reached := ReachedLimit(Last(log, key).value, RunLength(log, key), maxIdentical, maxRetryable);
            && (last.failure == None ==> (reached <==> LastAreSame(log, key, maxIdentical)))
            && (last.failure.Some? && !last.failure.value.retryable ==> reached)
            && (last.failure.Some? && last.failure.value.retryable && maxRetryable > 0 ==> (reached <==> LastAreSame(log, key, maxRetryable)))
            && (last.failure.Some? && last.failure.value.retryable && maxRetryable <= 0 ==> !reached)
  {
    LastIsTheLastResult(log, key);
    RunMeans(log, key, maxIdentical);
    RunMeans(log, key, 1);
    if maxRetryable > 0 { RunMeans(log, key, maxRetryable); }
  }

  /** The reason names what repeated: a success, a failure worth retrying, a refused permission, any other failure. */
  lemma {:induction false} ReasonMeans(entry: Entry)
    requires entry.Seen?
    ensures ReasonFor(entry) == "no_progress" <==> entry.failure == None
    ensures ReasonFor(entry) == "retry_budget_exhausted" <==> entry.failure.Some? && entry.failure.value.retryable
    ensures ReasonFor(entry) == "permission_retry" <==>
            entry.failure.Some? && !entry.failure.value.retryable && entry.failure.value.code == "permission_denied"
    ensures ReasonFor(entry) == "terminal_failure" <==>
            entry.failure.Some? && !entry.failure.value.retryable && entry.failure.value.code != "permission_denied"
  {
    assert |"no_progress"| == 11 && |"retry_budget_exhausted"| == 22 && |"permission_retry"| == 16;
    assert "terminal_failure"[0] == 't' && "permission_retry"[0] == 'p';
  }
}
