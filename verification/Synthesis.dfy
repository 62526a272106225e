/** Exactly-once delivery of child results to a parent turn (internal/feature/agent/synthesis.go):
    a cursor over the result mailbox, a set of delivered references, and the retained projection
    as fallback when the mailbox truncated or the caller polls. */
module Synthesis {
  import opened ResultStream

  datatype Outcome<+T> = Ok(value: T) | Unavailable(ref: ResultRef)

  type Payload = string

  datatype SynthesisResult = SynthesisResult(ref: ResultRef, payload: Payload)

  function Refs(results: seq<SynthesisResult>): (refs: seq<ResultRef>)
    ensures |refs| == |results| && forall i :: 0 <= i < |refs| ==> refs[i] == results[i].ref
  {
    seq(|results|, i requires 0 <= i < |results| => results[i].ref)
  }

  predicate NoDuplicates(refs: seq<ResultRef>) {
    forall i, j :: 0 <= i < j < |refs| ==> refs[i] != refs[j]
  }

  function Elements(refs: seq<ResultRef>): set<ResultRef> {
    set r <- refs
  }

  /** References carried by mailbox events. */
  function RefsOf(events: seq<Event>): seq<ResultRef> {
    if events == [] then []
    else (if events[0].ref.version == 0 then [] else [events[0].ref]) + RefsOf(events[1..])
  }

  lemma {:induction false} RefsOfContains(events: seq<Event>, r: ResultRef)
    ensures r in RefsOf(events) <==> r.version != 0 && exists i :: 0 <= i < |events| && events[i].ref == r
  {
    if events == [] {
    } else {
      RefsOfContains(events[1..], r);
      if r in RefsOf(events[1..]) {
        var i :| 0 <= i < |events[1..]| && events[1..][i].ref == r;
        assert events[i + 1].ref == r;
      }
      if i :| 0 < i < |events| && events[i].ref == r && r.version != 0 {
        assert events[1..][i - 1].ref == r;
      }
    }
  }

  // ---------- resolving unseen references ----------

  /** First position whose reference is unseen and cannot be looked up, or the length. */
  function FirstMissing(delivered: set<ResultRef>, refs: seq<ResultRef>, store: map<ResultRef, Payload>): (n: nat)
    ensures n <= |refs|
    ensures forall i :: 0 <= i < n ==> refs[i] in delivered || refs[i] in store
    ensures n < |refs| ==> refs[n] !in delivered && refs[n] !in store
  {
    if refs == [] then 0
    else if refs[0] !in delivered && refs[0] !in store then 0
    else 1 + FirstMissing(delivered, refs[1..], store)
  }

  /** A batch hands out exactly these references, each once, with what the store holds for them. */
  predicate BatchOf(results: seq<SynthesisResult>, refs: set<ResultRef>, store: map<ResultRef, Payload>) {
    && NoDuplicates(Refs(results)) && Elements(Refs(results)) == refs
    && forall k :: 0 <= k < |results| ==> results[k].ref in store && results[k].payload == store[results[k].ref]
  }

  /** The source of results for one turn: mailbox, immutable store, retained terminal references. */
  class Source {
    const mailbox: Mailbox
    var store: map<ResultRef, Payload>
    var retained: set<ResultRef>

    /** Every published reference is still retained and can be looked up. */
    ghost predicate Complete()
      reads this, mailbox
    {
      && mailbox.Valid()
      && retained <= store.Keys
      && forall i :: 0 <= i < |mailbox.log| ==> ValidRef(mailbox.log[i].ref) && mailbox.log[i].ref in retained
    }

    constructor ()
      ensures Complete() && mailbox.log == [] && fresh(mailbox)
    {
      mailbox := new Mailbox();
      store, retained := map[], {};
    }

    /** storeTerminal: the result becomes retained before its event is recorded. */
    method Store(ref: ResultRef, payload: Payload)
      requires ValidRef(ref)
      modifies this
      ensures store == old(store)[ref := payload] && retained == old(retained) + {ref}
      ensures old(Complete()) ==> Complete()
    {
      store := store[ref := payload];
      retained := retained + {ref};
    }

    /** emitStoredResult: announce a stored result. */
    method Publish(ref: ResultRef)
      requires Complete() && ValidRef(ref) && ref in retained
      modifies mailbox
      ensures Complete() && mailbox.log == old(mailbox.log) + [Event(ref)]
    {
      mailbox.RecordEvent(Event(ref));
    }

    /** Retained valid references, each once. */
    method RefsForTurn() returns (refs: seq<ResultRef>)
      ensures Elements(refs) == set r <- retained | ValidRef(r)
      ensures NoDuplicates(refs)
    {
      refs := [];
      var left := retained;
      while left != {}
        invariant left <= retained
        invariant forall r :: r in refs <==> r in retained - left && ValidRef(r)
        invariant NoDuplicates(refs)
        decreases left
      {
        var r :| r in left;
        left := left - {r};
        if ValidRef(r) { refs := refs + [r]; }
      }
    }
  }

  /** Union of two reference lists, first occurrences kept, invalid references dropped. */
  method MergeRefs(primary: seq<ResultRef>, fallback: seq<ResultRef>) returns (out: seq<ResultRef>)
    ensures NoDuplicates(out)
    ensures forall r :: r in out <==> (r in primary || r in fallback) && ValidRef(r)
  {
    out := [];
    var seen: set<ResultRef> := {};
    var all := primary + fallback;
    for i := 0 to |all|
      invariant seen == Elements(out) && NoDuplicates(out)
      invariant forall r :: r in out <==> r in all[..i] && ValidRef(r)
    {
      assert all[..i + 1] == all[..i] + [all[i]];
      if ValidRef(all[i]) && all[i] !in seen {
        seen, out := seen + {all[i]}, out + [all[i]];
      }
    }
    assert all[..|all|] == all;
  }

  class Consumer {
    const source: Source
    var cursor: nat
    var delivered: set<ResultRef>
    var consumed: set<ResultRef>
    ghost var handed: seq<ResultRef>   // everything returned in batches, in order

    /** Nothing was handed out twice, and only delivered references were. */
    ghost predicate Valid()
      reads this
    {
      NoDuplicates(handed) && Elements(handed) <= delivered
    }

    /** Every result event up to the cursor has been delivered. */
    ghost predicate Covered()
      reads this, source, source.mailbox
    {
      cursor <= |source.mailbox.log| &&
      forall i :: 0 <= i < cursor ==> source.mailbox.log[i].ref in delivered
    }

    /** References marked as delivered that no batch ever handed out. They stay lost: a drain only
        adds to them, and exactly when it fails. */
    ghost function Lost(): set<ResultRef>
      reads this
    {
      delivered - Elements(handed)
    }

    /** Delivered means handed out: no batch was dropped so far. */
    ghost predicate Lossless()
      reads this
    {
      delivered == Elements(handed)
    }

    constructor (source: Source)
      ensures Valid() && cursor == 0 && delivered == {} && handed == [] && this.source == source
    {
      this.source := source;
      cursor, delivered, consumed, handed := 0, {}, {}, [];
    }

    /** Marks while it resolves: on a missing result the references before it stay marked although
        the batch is dropped. */
    method ResolveUnseen(refs: seq<ResultRef>) returns (r: Outcome<seq<SynthesisResult>>)
      modifies this`delivered
      ensures var n := FirstMissing(old(delivered), refs, source.store);
              && delivered == old(delivered) + Elements(refs[..n])
              && (r.Ok? <==> n == |refs|)
              && (r.Unavailable? ==> r.ref == refs[n])
      ensures r.Ok? ==> BatchOf(r.value, Elements(refs) - old(delivered), source.store)
    {
      var store := source.store;
      var results: seq<SynthesisResult> := [];
      ghost var n := FirstMissing(delivered, refs, store);
      MissingIsNew(delivered, refs, store);
      for i := 0 to |refs|
        invariant i <= n
        invariant delivered == old(delivered) + Elements(refs[..i])
        invariant BatchOf(results, Elements(refs[..i]) - old(delivered), store)
      {
        ElementsTakeOne(refs, i);
        if refs[i] !in delivered {
          if refs[i] !in store {
            FirstMissingIsFirst(old(delivered), refs, store, i);
            return Unavailable(refs[i]);
          }
          delivered := delivered + {refs[i]};
          BatchGrows(results, Elements(refs[..i]) - old(delivered), store, refs[i]);
          assert Elements(refs[..i + 1]) - old(delivered) == Elements(refs[..i]) - old(delivered) + {refs[i]};
          results := results + [SynthesisResult(refs[i], store[refs[i]])];
        }
      }
      assert refs[..|refs|] == refs;
      return Ok(results);
    }

    /** What a drain asks for: the references of the events past the cursor that the mailbox still
        holds and, when it dropped some, everything retained. */
    ghost function Requested(): set<ResultRef>
      reads this, source, source.mailbox
    {
      RequestedRefs(source.mailbox.log, source.retained, cursor)
    }

    /** Everything retained and unseen, without waiting; it fails if and only if some of that cannot be
        looked up. */
    method DrainReady() returns (r: Outcome<seq<SynthesisResult>>)
      requires Valid()
      modifies this`delivered, this`handed
      ensures Valid() && old(delivered) <= delivered
      ensures r.Ok? ==> handed == old(handed) + Refs(r.value) && delivered == old(delivered) + Elements(Refs(r.value))
      ensures Lost() == old(Lost()) + (if r.Ok? then {} else delivered - old(delivered))
      ensures r.Ok? ==> BatchOf(r.value, (set x <- source.retained | ValidRef(x)) - old(delivered), source.store)
      ensures r.Ok? <==> (set x <- source.retained | ValidRef(x)) - old(delivered) <= source.store.Keys
      ensures r.Unavailable? ==> handed == old(handed) && delivered <= old(delivered) + source.retained
      ensures r.Unavailable? ==> r.ref in source.retained - old(delivered) && r.ref !in source.store
      ensures r.Ok? && old(Lossless()) ==> Lossless()
      ensures source.Complete() ==> r.Ok?
    {
      var refs := source.RefsForTurn();
      FoundIffAllStored(delivered, refs, source.store);
      assert Elements(refs) <= source.retained;
      r := ResolveUnseen(refs);
      assert refs[..|refs|] == refs;
      if r.Ok? {
        AppendFresh(handed, Refs(r.value));
        handed := handed + Refs(r.value);
      }
    }

    /** References of the events past the cursor, completed from the retained projection when the
        mailbox truncated. With a complete source every one resolves and none is skipped. */
    method UnseenRefs() returns (refs: seq<ResultRef>, next: nat)
      requires source.mailbox.Valid()
      ensures next == if cursor < |source.mailbox.log| then |source.mailbox.log| else cursor
      ensures Elements(refs) == Requested()
      ensures source.Complete() ==> forall i :: cursor <= i < |source.mailbox.log| ==> source.mailbox.log[i].ref in refs
    {
      var events, last, truncated, channel := source.mailbox.Consume(cursor);
      refs, next := RefsOf(events), last;
      HeldRefsAre(source.mailbox.log, cursor, events);
      if truncated {
        var kept := source.RefsForTurn();
        refs := MergeRefs(refs, kept);
        assert forall x :: x in kept <==> x in Elements(kept);
      }
      assert Elements(refs) == Requested();
      if source.Complete() { CompleteSkipsNone(source.mailbox.log, source.retained, cursor); }
    }

    /** A wait that returned events (or none, on timeout), resolved against the delivered set. It fails
        if and only if something unseen it asks for cannot be looked up; the cursor moves only on success. */
    method Drain() returns (r: Outcome<seq<SynthesisResult>>)
      requires Valid() && source.mailbox.Valid()
      modifies this`delivered, this`handed, this`cursor
      ensures Valid() && old(delivered) <= delivered
      ensures r.Ok? ==> handed == old(handed) + Refs(r.value) && delivered == old(delivered) + Elements(Refs(r.value))
      ensures r.Ok? ==> BatchOf(r.value, old(Requested()) - old(delivered), source.store)
      ensures r.Ok? <==> old(Requested()) - old(delivered) <= source.store.Keys
      ensures r.Ok? ==> cursor == Max(old(cursor), |source.mailbox.log|)
      ensures Lost() == old(Lost()) + (if r.Ok? then {} else delivered - old(delivered))
      ensures r.Unavailable? ==> handed == old(handed) && cursor == old(cursor) && delivered <= old(delivered) + old(Requested())
      ensures r.Unavailable? ==> r.ref in old(Requested()) - old(delivered) && r.ref !in source.store
      ensures r.Ok? && old(Lossless()) ==> Lossless()
      ensures source.Complete() ==> r.Ok?
      ensures source.Complete() && old(Covered()) ==> Covered() && cursor == |source.mailbox.log|
    {
      var refs, next := UnseenRefs();
      FoundIffAllStored(delivered, refs, source.store);
      if source.Complete() { CompleteIsStored(source.mailbox.log, source.retained, cursor); }
      r := ResolveUnseen(refs);
      assert refs[..|refs|] == refs;
      if r.Unavailable? { return; }
      AppendFresh(handed, Refs(r.value));
      handed := handed + Refs(r.value);
      assert forall x <- refs :: x in delivered;
      cursor := next;
    }

    /** Consumption is acknowledged once per reference. */
    method MarkConsumed(batch: seq<SynthesisResult>) returns (announced: seq<ResultRef>)
      modifies this`consumed
      ensures NoDuplicates(announced)
      ensures Elements(announced) == (set r <- Refs(batch) | ValidRef(r)) - old(consumed)
      ensures consumed == old(consumed) + Elements(announced)
    {
      announced := [];
      var refs := Refs(batch);
      for i := 0 to |refs|
        invariant NoDuplicates(announced) && consumed == old(consumed) + Elements(announced)
        invariant forall r :: r in announced <==> r in refs[..i] && ValidRef(r) && r !in old(consumed)
      {
        assert refs[..i + 1] == refs[..i] + [refs[i]];
        if ValidRef(refs[i]) && refs[i] !in consumed {
          consumed, announced := consumed + {refs[i]}, announced + [refs[i]];
        }
      }
      assert refs[..|refs|] == refs;
    }
  }

  lemma {:induction false} FirstMissingIsFirst(delivered: set<ResultRef>, refs: seq<ResultRef>, store: map<ResultRef, Payload>, i: nat)
    requires i < |refs| && i <= FirstMissing(delivered, refs, store)
    requires refs[i] !in delivered && refs[i] !in store
    ensures FirstMissing(delivered, refs, store) == i
  {
  }

  /** References of the held events past a cursor, completed from the retained ones when events past
      it are gone. */
  function RequestedRefs(log: seq<Event>, retained: set<ResultRef>, cursor: nat): set<ResultRef> {
    var held := set i | Max(cursor, Oldest(log)) <= i < |log| && log[i].ref.version != 0 :: log[i].ref;
    if cursor < Oldest(log) then set x | x in held + retained && ValidRef(x) else held
  }

  /** A reference is asked for when an event past the cursor that the mailbox still holds carries it, or
      when the mailbox lost events past the cursor and it is retained. */
  lemma {:induction false} RequestedMeans(log: seq<Event>, retained: set<ResultRef>, cursor: nat, r: ResultRef)
    ensures var held := exists i :: cursor <= i < |log| && |log| - i <= 128 && log[i].ref == r && r.version > 0;
            var lost := |log| > 128 && cursor < |log| - 128;
            && (!lost ==> (r in RequestedRefs(log, retained, cursor) <==> held))
            && (lost ==> (r in RequestedRefs(log, retained, cursor) <==> (held || r in retained) && r.agent != "" && r.version > 0))
  {
    var first := Max(cursor, Oldest(log));
    assert (exists i :: cursor <= i < |log| && |log| - i <= 128 && log[i].ref == r && r.version > 0) <==>
           (exists i :: first <= i < |log| && log[i].ref.version != 0 && log[i].ref == r);
  }

  lemma {:induction false} HeldRefsAre(log: seq<Event>, cursor: nat, events: seq<Event>)
    requires events == if cursor < |log| then log[Max(cursor, Oldest(log))..] else []
    ensures Elements(RefsOf(events)) == set i | Max(cursor, Oldest(log)) <= i < |log| && log[i].ref.version != 0 :: log[i].ref
  {
    var first := Max(cursor, Oldest(log));
    forall x ensures x in RefsOf(events) <==> exists i :: first <= i < |log| && log[i].ref.version != 0 && log[i].ref == x {
      RefsOfContains(events, x);
      if i :| 0 <= i < |events| && events[i].ref == x { assert events[i] == log[first + i]; }
      if i :| first <= i < |log| && log[i].ref == x { assert events[i - first] == log[i]; }
    }
  }

  /** When every published reference is valid and retained, a drain asks for all events past the cursor. */
  lemma {:induction false} CompleteSkipsNone(log: seq<Event>, retained: set<ResultRef>, cursor: nat)
    requires forall i :: 0 <= i < |log| ==> ValidRef(log[i].ref) && log[i].ref in retained
    ensures forall i :: cursor <= i < |log| ==> log[i].ref in RequestedRefs(log, retained, cursor)
  {
  }

  lemma {:induction false} CompleteIsStored(log: seq<Event>, retained: set<ResultRef>, cursor: nat)
    requires forall i :: 0 <= i < |log| ==> ValidRef(log[i].ref) && log[i].ref in retained
    ensures RequestedRefs(log, retained, cursor) <= retained
  {
  }

  /** A resolve gets to the end exactly when every unseen reference is stored. */
  lemma {:induction false} FoundIffAllStored(delivered: set<ResultRef>, refs: seq<ResultRef>, store: map<ResultRef, Payload>)
    ensures FirstMissing(delivered, refs, store) == |refs| <==> Elements(refs) - delivered <= store.Keys
    ensures Elements(refs[..FirstMissing(delivered, refs, store)]) <= Elements(refs)
  {
    var n := FirstMissing(delivered, refs, store);
    if n < |refs| { assert refs[n] in Elements(refs) - delivered; }
  }

  /** The reference a resolve stops at is not among the ones before it. */
  lemma {:induction false} MissingIsNew(delivered: set<ResultRef>, refs: seq<ResultRef>, store: map<ResultRef, Payload>)
    ensures var n := FirstMissing(delivered, refs, store);
            n < |refs| ==> refs[n] !in store && refs[n] !in delivered + Elements(refs[..n])
  {
  }

  lemma {:induction false} ElementsTakeOne(refs: seq<ResultRef>, i: nat)
    requires i < |refs|
    ensures Elements(refs[..i + 1]) == Elements(refs[..i]) + {refs[i]}
  {
  }

  lemma {:induction false} BatchGrows(results: seq<SynthesisResult>, refs: set<ResultRef>, store: map<ResultRef, Payload>, r: ResultRef)
    requires BatchOf(results, refs, store) && r !in refs && r in store
    ensures BatchOf(results + [SynthesisResult(r, store[r])], refs + {r}, store)
  {
    assert Refs(results + [SynthesisResult(r, store[r])]) == Refs(results) + [r];
    assert r !in Elements(Refs(results));
  }

  lemma {:induction false} AppendFresh(handed: seq<ResultRef>, batch: seq<ResultRef>)
    requires NoDuplicates(handed) && NoDuplicates(batch) && Elements(handed) !! Elements(batch)
    ensures NoDuplicates(handed + batch) && Elements(handed + batch) == Elements(handed) + Elements(batch)
  {
    forall i, j | 0 <= i < j < |handed + batch| ensures (handed + batch)[i] != (handed + batch)[j] {
      if i < |handed| <= j {
        assert handed[i] in Elements(handed) && batch[j - |handed|] in Elements(batch);
      }
    }
  }

  // ---------- what a failed lookup loses ----------

  /** The references a failed resolve marks without handing them out. */
  function LostBy(delivered: set<ResultRef>, refs: seq<ResultRef>, store: map<ResultRef, Payload>): set<ResultRef> {
    var n := FirstMissing(delivered, refs, store);
    if n == |refs| then {} else Elements(refs[..n]) - delivered
  }

  /** First reference not yet delivered, if any. */
  function FirstUnseen(delivered: set<ResultRef>, refs: seq<ResultRef>): (n: nat)
    ensures n <= |refs| && (n < |refs| ==> refs[n] !in delivered)
    ensures forall i :: 0 <= i < n ==> refs[i] in delivered
  {
    if refs == [] || refs[0] !in delivered then 0 else 1 + FirstUnseen(delivered, refs[1..])
  }

  /** A resolve loses results exactly when some unseen reference cannot be looked up while the
      first unseen one can. */
  lemma {:induction false} LosesResultsIffLaterLookupFails(delivered: set<ResultRef>, refs: seq<ResultRef>, store: map<ResultRef, Payload>)
    ensures LostBy(delivered, refs, store) != {} <==>
            && (exists i :: 0 <= i < |refs| && refs[i] !in delivered && refs[i] !in store)
            && refs[FirstUnseen(delivered, refs)] in store
  {
    var n, u := FirstMissing(delivered, refs, store), FirstUnseen(delivered, refs);
    if n < |refs| {
      assert u <= n;
      if u < n {
        assert refs[..n][u] == refs[u];
        assert refs[u] in LostBy(delivered, refs, store);
      } else {
        forall r | r in refs[..n] ensures r in delivered {
          var k :| 0 <= k < n && refs[k] == r;
        }
        assert LostBy(delivered, refs, store) == {};
      }
    }
  }

  /** Two unseen results, the second gone from the store: the first is marked delivered for good
      although its batch never reached the caller. */
  lemma {:induction false} LostResultExample()
    ensures var a, b := ResultRef("s", "a", 1), ResultRef("s", "b", 1);
            LostBy({}, [a, b], map[a := "done"]) == {a}
  {
    var a, b := ResultRef("s", "a", 1), ResultRef("s", "b", 1);
    var store := map[a := "done"];
    FirstMissingIsFirst({}, [a, b], store, 1);
    assert [a, b][..1] == [a];
  }
}
