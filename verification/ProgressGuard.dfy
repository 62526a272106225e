/** Loop detection (internal/engine/turn/progress_guard.go): epoch-stamped observations per call,
    proved to summarise the full log of executions. The semantic hashes are their own preimages:
    a call key is the tool name with canonical arguments, a digest is the hashed result content. */
module ProgressGuard {

  datatype Option<+T> = None | Some(value: T)

  datatype Key = Key(name: string, arguments: string)

  datatype Call = Call(id: string, name: string, arguments: string)

  datatype Failure = Failure(code: string, retryable: bool, recovery: string, evidence: string, message: string)

  /** `content` stands for every other field of a result that its hash covers. */
  datatype ToolResult = ToolResult(content: string, failure: Option<Failure>)

  datatype Digest = FailureDigest(code: string, retryable: bool, recovery: string, evidence: string) | ContentDigest(content: string)

  datatype Execution = Execution(call: Call, result: ToolResult, erred: bool, suppressed: bool)

  datatype Semantics = Semantics(readOnly: bool, taskState: bool)

  type Definitions = map<string, string -> Semantics>

  function KeyOf(c: Call): Key {
    Key(c.name, c.arguments)
  }

  function DigestOf(r: ToolResult): Digest {
    match r.failure
    case Some(f) => FailureDigest(f.code, f.retryable, f.recovery, f.evidence)
    case None => ContentDigest(r.content)
  }

  // ---------- the execution log ----------

  datatype Entry = Seen(key: Key, digest: Digest, failure: Option<Failure>) | Bump

  /** What one execution contributes to the log. */
  function EntryOf(defs: Definitions, e: Execution): seq<Entry> {
    if e.suppressed || e.call.name !in defs then []
    else
      var sem := defs[e.call.name](e.call.arguments);
      if !e.erred && !sem.readOnly && !sem.taskState then [Bump]
      else if e.result.failure.Some? || sem.taskState || sem.readOnly then
        [Seen(KeyOf(e.call), DigestOf(e.result), e.result.failure)]
      else []
  }

  function LogAfter(defs: Definitions, log: seq<Entry>, es: seq<Execution>): seq<Entry>
    decreases |es|
  {
    if es == [] then log else LogAfter(defs, log, es[..|es| - 1]) + EntryOf(defs, es[|es| - 1])
  }

  /** The last result of the call since the last epoch bump. */
  function Last(log: seq<Entry>, key: Key): Option<Entry> {
    if log == [] || log[|log| - 1].Bump? then None
    else if log[|log| - 1].key == key then Some(log[|log| - 1])
    else Last(log[..|log| - 1], key)
  }

  /** How many results of the call in a row, ending at the end of the log, carry the digest. */
  function TrailingRun(log: seq<Entry>, key: Key, digest: Digest): nat {
    if log == [] || log[|log| - 1].Bump? then 0
    else if log[|log| - 1].key != key then TrailingRun(log[..|log| - 1], key, digest)
    else if log[|log| - 1].digest == digest then 1 + TrailingRun(log[..|log| - 1], key, digest)
    else 0
  }

  lemma {:induction false} LastIsOfKey(log: seq<Entry>, key: Key)
    ensures var l := Last(log, key); l.Some? ==>
              l.value.Seen? && l.value.key == key && TrailingRun(log, key, l.value.digest) >= 1
  {
    if log != [] && log[|log| - 1].Seen? && log[|log| - 1].key != key {
      LastIsOfKey(log[..|log| - 1], key);
    }
  }

  /** Length of the call's run of identical results since the last bump. */
  function RunLength(log: seq<Entry>, key: Key): nat {
    LastIsOfKey(log, key);
    match Last(log, key) case None => 0 case Some(e) => TrailingRun(log, key, e.digest)
  }

  lemma {:induction false} AppendSeen(log: seq<Entry>, e: Entry, key: Key, digest: Digest)
    requires e.Seen?
    ensures Last(log + [e], key) == if e.key == key then Some(e) else Last(log, key)
    ensures TrailingRun(log + [e], key, digest) ==
            if e.key != key then TrailingRun(log, key, digest)
            else if e.digest == digest then 1 + TrailingRun(log, key, digest) else 0
  {
  }

  /** A changed result starts over: nothing of another digest is counted. */
  lemma {:induction false} OtherDigestHasNoRun(log: seq<Entry>, key: Key, digest: Digest)
    requires Last(log, key).None? || (LastIsOfKey(log, key); Last(log, key).value.digest != digest)
    ensures TrailingRun(log, key, digest) == 0
  {
    LastIsOfKey(log, key);
    if log != [] && log[|log| - 1].Seen? && log[|log| - 1].key != key {
      LastIsOfKey(log[..|log| - 1], key);
      OtherDigestHasNoRun(log[..|log| - 1], key, digest);
    }
  }

  /** A result of one call says nothing about the others. */
  lemma {:induction false} OthersUnchanged(log: seq<Entry>, e: Entry)
    requires e.Seen?
    ensures forall k: Key :: k != e.key ==> Last(log + [e], k) == Last(log, k) && RunLength(log + [e], k) == RunLength(log, k)
  {
  }

  // ---------- round marks ----------

  datatype Mark = Stalled | Moved | External

  function TrailingStalled(marks: seq<Mark>): nat {
    if marks == [] || !marks[|marks| - 1].Stalled? then 0 else 1 + TrailingStalled(marks[..|marks| - 1])
  }

  lemma {:induction false} AppendMark(marks: seq<Mark>, m: Mark)
    ensures TrailingStalled(marks + [m]) == if m.Stalled? then 1 + TrailingStalled(marks) else 0
  {
  }

  // ---------- the guard ----------

  datatype Observation = Observation(epoch: nat, digest: Digest, count: nat, failure: bool, retryable: bool, code: string, payload: Option<Failure>)

  /** A suppressed call's synthetic answer; None failure stands for the default no-progress one. */
  datatype Suppression = Suppression(failure: Option<Failure>, reason: string, repeatCount: nat)

  /** An observation is the summary of the log for its key. */
  ghost predicate Summarises(o: Observation, log: seq<Entry>, key: Key) {
    LastIsOfKey(log, key);
    var last := Last(log, key);
    && last.Some?
    && o.digest == last.value.digest && o.count == RunLength(log, key)
    && o.failure == last.value.failure.Some?
    && o.payload == last.value.failure
    && (o.failure ==> o.retryable == last.value.failure.value.retryable && o.code == last.value.failure.value.code)
    && (last.value.failure.Some? <==> last.value.digest.FailureDigest?)
    && (last.value.failure.Some? ==> last.value.digest.retryable == last.value.failure.value.retryable && last.value.digest.code == last.value.failure.value.code)
  }

  /** Result kinds: a terminal failure is never retried, a retryable one has its own limit. */
  predicate ReachedLimit(entry: Entry, run: nat, maxIdentical: int, maxRetryable: int)
    requires entry.Seen?
  {
    match entry.failure
    case Some(f) => if f.retryable then maxRetryable > 0 && run >= maxRetryable else run >= 1
    case None => run >= maxIdentical
  }

  /** A tracked result stalls when it repeats and its repetition limit is reached. */
  predicate Stalls(log: seq<Entry>, r: ToolResult, key: Key, maxIdentical: int, maxRetryable: int) {
    var limit := if r.failure.Some? && r.failure.value.retryable then maxRetryable else maxIdentical;
    RunLength(log, key) >= 2 && limit > 0 && RunLength(log, key) >= limit
  }

  /** Why a repeated result is cut short. */
  function ReasonFor(entry: Entry): string
    requires entry.Seen?
  {
    match entry.failure
    case None => "no_progress"
    case Some(f) =>
      if f.retryable then "retry_budget_exhausted"
      else if f.code == "permission_denied" then "permission_retry" else "terminal_failure"
  }

  class Guard {
    const definitions: Definitions
    const maxIdentical: int
    const maxRetryable: int
    const maxStalled: int
    var stalledRounds: nat
    var epoch: nat
    var observations: map<Key, Observation>
    ghost var log: seq<Entry>
    ghost var marks: seq<Mark>

    ghost predicate Valid()
      reads this
    {
      && stalledRounds == TrailingStalled(marks)
      && (forall k <- observations :: observations[k].epoch <= epoch)
      && (forall k: Key :: Current(k) <==> Last(log, k).Some?)
      && (forall k: Key :: Current(k) ==> Summarises(observations[k], log, k))
    }

    predicate Current(k: Key)
      reads this
    {
      k in observations && observations[k].epoch == epoch
    }

    constructor (definitions: Definitions, maxIdentical: int, maxRetryable: int, maxStalled: int)
      ensures Valid() && log == [] && marks == []
      ensures this.definitions == definitions && this.maxIdentical == maxIdentical
      ensures this.maxRetryable == maxRetryable && this.maxStalled == maxStalled
    {
      this.definitions := definitions;
      this.maxIdentical, this.maxRetryable, this.maxStalled := maxIdentical, maxRetryable, maxStalled;
      stalledRounds, epoch, observations, log, marks := 0, 0, map[], [], [];
    }

    /** New runtime context: earlier observations no longer count. */
    method ObserveExternalProgress()
      requires Valid()
      modifies this
      ensures Valid() && log == old(log) + [Bump] && marks == old(marks) + [External]
    {
      epoch, stalledRounds := epoch + 1, 0;
      log, marks := log + [Bump], marks + [External];
    }

    method BumpEpoch()
      requires Valid()
      modifies this`epoch, this`log
      ensures Valid() && log == old(log) + [Bump]
    {
      epoch := epoch + 1;
      log := log + [Bump];
    }

    /** Records one tracked result. */
    method Note(key: Key, result: ToolResult) returns (stalled: bool)
      requires Valid()
      modifies this`observations, this`log
      ensures Valid() && log == old(log) + [Seen(key, DigestOf(result), result.failure)]
      ensures stalled == Stalls(log, result, key, maxIdentical, maxRetryable)
    {
      ghost var was := log;
      var digest := DigestOf(result);
      ghost var entry := Seen(key, digest, result.failure);
      LastIsOfKey(was, key);
      AppendSeen(was, entry, key, digest);
      OthersUnchanged(was, entry);
      log := log + [entry];
      if key !in observations || observations[key].epoch != epoch || observations[key].digest != digest {
        OtherDigestHasNoRun(was, key, digest);
        var f := result.failure;
        observations := observations[key :=
          Observation(epoch, digest, 1, f.Some?, f.Some? && f.value.retryable, if f.Some? then f.value.code else "", f)];
        return false;
      }
      var o := observations[key];
      o := o.(count := o.count + 1);
      if result.failure.Some? { o := o.(payload := result.failure); }
      observations := observations[key := o];
      var limit := if result.failure.Some? && result.failure.value.retryable then maxRetryable else maxIdentical;
      stalled := limit > 0 && o.count >= limit;
    }

    method Observe(e: Execution) returns (stalled: bool, tracked: bool)
      requires Valid() && !e.suppressed
      modifies this`observations, this`epoch, this`log
      ensures Valid() && log == old(log) + EntryOf(definitions, e)
      ensures tracked == (EntryOf(definitions, e) != [] && EntryOf(definitions, e)[0].Seen?)
      ensures stalled == (tracked && Stalls(log, e.result, KeyOf(e.call), maxIdentical, maxRetryable))
    {
      if e.call.name !in definitions { return false, false; }
      var sem := definitions[e.call.name](e.call.arguments);
      if !e.erred && !sem.readOnly && !sem.taskState {
        BumpEpoch();
        return false, false;
      }
      if !(e.result.failure.Some? || sem.taskState || sem.readOnly) { return false, false; }
      stalled := Note(KeyOf(e.call), e.result);
      tracked := true;
    }

    /** The execution brought nothing new: it was suppressed, or repeated up to its limit. */
    ghost predicate NothingNew(start: seq<Entry>, es: seq<Execution>, i: nat)
      requires i < |es|
    {
      es[i].suppressed ||
      (var entry := EntryOf(definitions, es[i]);
       && entry != [] && entry[0].Seen?
       && Stalls(LogAfter(definitions, start, es[..i + 1]), es[i].result, KeyOf(es[i].call), maxIdentical, maxRetryable))
    }

    ghost predicate RoundStalled(start: seq<Entry>, es: seq<Execution>) {
      es != [] && forall i :: 0 <= i < |es| ==> NothingNew(start, es, i)
    }

    method ShouldSynthesize(stalledRound: bool) returns (force: bool)
      requires Valid()
      modifies this`stalledRounds, this`marks
      ensures Valid() && marks == old(marks) + [if stalledRound then Stalled else Moved]
      ensures force <==> stalledRound && (maxStalled <= 0 || TrailingStalled(marks) >= maxStalled)
    {
      AppendMark(marks, if stalledRound then Stalled else Moved);
      marks := marks + [if stalledRound then Stalled else Moved];
      if !stalledRound {
        stalledRounds := 0;
        return false;
      }
      stalledRounds := stalledRounds + 1;
      return maxStalled <= 0 || stalledRounds >= maxStalled;
    }

    /** Synthesis is forced exactly when this round and enough rounds right before it brought
        nothing new. */
    method ObserveRound(es: seq<Execution>) returns (force: bool)
      requires Valid()
      modifies this
      ensures Valid()
      ensures maxIdentical <= 0 ==> !force && log == old(log) && marks == old(marks)
      ensures maxIdentical > 0 ==>
                && log == LogAfter(definitions, old(log), es)
                && marks == old(marks) + [if RoundStalled(old(log), es) then Stalled else Moved]
                && (force <==> marks[|marks| - 1].Stalled? && (maxStalled <= 0 || TrailingStalled(marks) >= maxStalled))
    {
      if maxIdentical <= 0 { return false; }
      if |es| == 0 {
        force := ShouldSynthesize(false);
        return;
      }
      var allStalled, tracked := true, false;
      for i := 0 to |es|
        invariant Valid() && marks == old(marks) && log == LogAfter(definitions, old(log), es[..i])
        invariant allStalled <==> forall j :: 0 <= j < i ==> NothingNew(old(log), es, j)
        invariant i > 0 && allStalled ==> tracked
      {
        assert es[..i + 1][..i] == es[..i];
        if es[i].suppressed {
          tracked := true;
        } else {
          var s, t := Observe(es[i]);
          assert log == LogAfter(definitions, old(log), es[..i + 1]);
          assert NothingNew(old(log), es, i) <==> s;
          if t { tracked := true; }
          if !s { allStalled := false; }
        }
      }
      assert es[..|es|] == es;
      force := ShouldSynthesize(tracked && allStalled);
    }

    /** A call is suppressed exactly when its run of identical results since the last bump has
        reached the limit for its kind of result; the answer repeats the latest failure. */
    method Suppress(call: Call) returns (s: Option<Suppression>)
      requires Valid()
      ensures Last(log, KeyOf(call)).Some? ==> Last(log, KeyOf(call)).value.Seen?
      ensures s.Some? <==> (maxIdentical > 0 && Last(log, KeyOf(call)).Some?
                            && ReachedLimit(Last(log, KeyOf(call)).value, RunLength(log, KeyOf(call)), maxIdentical, maxRetryable))
      ensures s.Some? ==> s.value.repeatCount == RunLength(log, KeyOf(call))
      ensures s.Some? ==> s.value.failure == Last(log, KeyOf(call)).value.failure
      ensures s.Some? ==> s.value.reason == ReasonFor(Last(log, KeyOf(call)).value)
    {
      var key := KeyOf(call);
      LastIsOfKey(log, key);
      if maxIdentical <= 0 || key !in observations || observations[key].epoch != epoch { return None; }
      var o := observations[key];
      var fire := if o.failure && !o.retryable then o.count >= 1
                  else if o.failure && o.retryable then maxRetryable > 0 && o.count >= maxRetryable
                  else o.count >= maxIdentical;
      if !fire { return None; }
      var reason := if o.failure && !o.retryable then (if o.code == "permission_denied" then "permission_retry" else "terminal_failure")
                    else if o.failure then "retry_budget_exhausted" else "no_progress";
      return Some(Suppression(o.payload, reason, o.count));
    }
  }

  /** Forced synthesis means the last `limit` rounds in a row were stalled, with no external
      progress in between. */
  lemma {:induction false} TrailingStalledMeansConsecutive(marks: seq<Mark>, limit: nat)
    ensures TrailingStalled(marks) >= limit <==>
            limit <= |marks| && forall i :: |marks| - limit <= i < |marks| ==> marks[i].Stalled?
  {
    if limit > 0 && marks != [] && marks[|marks| - 1].Stalled? {
      var rest := marks[..|marks| - 1];
      TrailingStalledMeansConsecutive(rest, limit - 1);
      if limit <= |marks| {
        assert forall i :: |marks| - limit <= i < |rest| ==> rest[i] == marks[i];
      }
    }
  }

  /** The run the guard counts, read off the log: its last n results of the call since the last
      bump all carry one digest. */
  lemma {:induction false} RunCountsIdenticalResults(log: seq<Entry>, key: Key, digest: Digest, results: seq<Entry>)
    requires results == Results(log, key)
    ensures TrailingRun(log, key, digest) <= |results|
    ensures forall i :: |results| - TrailingRun(log, key, digest) <= i < |results| ==> results[i].Seen? && results[i].digest == digest
    ensures TrailingRun(log, key, digest) < |results| ==>
              results[|results| - 1 - TrailingRun(log, key, digest)].Seen? && results[|results| - 1 - TrailingRun(log, key, digest)].digest != digest
    decreases |log|
  {
    if log != [] && log[|log| - 1].Seen? {
      RunCountsIdenticalResults(log[..|log| - 1], key, digest, Results(log[..|log| - 1], key));
    }
  }

  /** All results of the call after the last bump, oldest first. */
  function Results(log: seq<Entry>, key: Key): (r: seq<Entry>)
    ensures forall i :: 0 <= i < |r| ==> r[i].Seen? && r[i].key == key
  {
    if log == [] || log[|log| - 1].Bump? then []
    else Results(log[..|log| - 1], key) + if log[|log| - 1].key == key then [log[|log| - 1]] else []
  }
}
