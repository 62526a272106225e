/** What compaction makes of a history, message by message (internal/core/conversation/retention.go),
    told by the fields of the messages. */
module CompactionText {
  import opened Text
  import opened Retention

  // ---------- the messages that carry no tool result ----------

  /** What an old message says in the compacted history besides tool results: an assistant that called
      tools keeps its words, if it has any, without the calls. */
  function Said(m: Message): seq<Message> {
    match m.role
    case Tool => []
    case Assistant =>
      if m.calls == [] then [m]
      else if OnlySpaces(m.content) && m.parts == [] then []
      else [Message(m.id, Assistant, m.content, [], m.callID, m.toolName, m.parts)]
    case _ => [m]
  }

  function AllSaid(ms: seq<Message>): seq<Message> {
    if ms == [] then [] else Said(ms[0]) + AllSaid(ms[1..])
  }

  lemma {:induction false} AllSaidConcat(a: seq<Message>, b: seq<Message>)
    ensures AllSaid(a + b) == AllSaid(a) + AllSaid(b)
  {
    if a == [] {
      assert a + b == b;
    } else {
      assert (a + b)[1..] == a[1..] + b;
      AllSaidConcat(a[1..], b);
    }
  }

  lemma {:induction false} RepliesSayNothing(ms: seq<Message>)
    requires forall m <- ms :: m.role.Tool?
    ensures AllSaid(ms) == []
  {
    if ms == [] {
    } else {
      RepliesSayNothing(ms[1..]);
    }
  }

  lemma {:induction false} OwnWords(m: Message)
    ensures (if IsToolHistory(m) then OwnText(m) else [m]) == Said(m)
  {
    var before, after := TrimSplits(m.content);
  }

  lemma {:induction false} EntrySays(ms: seq<Message>, from: nat, stop: nat)
    requires from < stop <= |ms|
    ensures AllSaid(ms[from..EntryEnd(ms, from, stop)]) == Said(ms[from])
  {
    var end := EntryEnd(ms, from, stop);
    assert ms[from..end] == [ms[from]] + ms[from + 1..end];
    RepliesSayNothing(ms[from + 1..end]);
  }

  lemma {:induction false} KeptIsSaid(ms: seq<Message>, from: nat, stop: nat)
    requires from <= stop <= |ms|
    ensures RangeKept(ms, from, stop) == AllSaid(ms[from..stop])
    decreases stop - from
  {
    hide Said, OwnText, IsToolHistory, EntryEnd;
    if from == stop {
    } else {
      var end := EntryEnd(ms, from, stop);
      OwnWords(ms[from]);
      EntrySays(ms, from, stop);
      KeptIsSaid(ms, end, stop);
      AllSaidConcat(ms[from..end], ms[end..stop]);
      assert ms[from..stop] == ms[from..end] + ms[end..stop];
    }
  }

  // ---------- the texts of tool results ----------

  /** A tool's name as the text shows it. */
  function Shown(name: string): string {
    if OnlySpaces(name) then "unknown" else Trim(name)
  }

  /** A tool result told as text keeps its id and nothing else of the protocol. */
  predicate IsResultText(render: Renderer, text: Message, name: string, result: Message, limit: int) {
    text == Message(result.id, Assistant, render(Shown(name), result.content, limit), [], "", "", [])
  }

  predicate IsGone(text: Message, name: string) {
    text == Message(NewID, Assistant, "Historical tool " + Shown(name) + " was requested, but its result is no longer retained.", [], "", "", [])
  }

  /** The text of a call: the first result with its id, or that there is none. */
  predicate TellsCall(render: Renderer, text: Message, call: ToolCall, results: seq<Message>, limit: int) {
    || (IsGone(text, call.name) && forall j :: 0 <= j < |results| ==> results[j].callID != call.id)
    || (exists j :: 0 <= j < |results| && results[j].callID == call.id && IsResultText(render, text, call.name, results[j], limit)
                    && forall k :: 0 <= k < j ==> results[k].callID != call.id)
  }

  /** Positions of the results that answer no call of the group, in order. */
  function Strays(calls: seq<ToolCall>, results: seq<Message>): (strays: seq<nat>)
    ensures forall k :: 0 <= k < |strays| ==> strays[k] < |results|
  {
    if results == [] then []
    else
      var n := |results| - 1;
      Strays(calls, results[..n]) + if forall c <- calls :: c.id != results[n].callID then [n] else []
  }

  lemma {:induction false} ShownIs(name: string)
    ensures DisplayName(name) == Shown(name)
  {
    var before, after := TrimSplits(name);
  }

  lemma {:induction false} CallIsTold(render: Renderer, call: ToolCall, results: seq<Message>, limit: int)
    ensures TellsCall(render, CallSummary(render, call, results, limit), call, results, limit)
  {
    ShownIs(call.name);
  }

  lemma {:induction false} StraysAre(calls: seq<ToolCall>, results: seq<Message>)
    ensures StraySources(calls, results) == Strays(calls, results)
    decreases |results|
  {
    if results == [] {
    } else {
      var n := |results| - 1;
      StraysAre(calls, results[..n]);
      assert HasCall(calls, results[n].callID) <==> !(forall c <- calls :: c.id != results[n].callID);
    }
  }

  /** The texts of a call/result group: one per call in call order, then one per result no call asked for,
      in result order. */
  predicate TellsGroup(render: Renderer, texts: seq<Message>, calls: seq<ToolCall>, results: seq<Message>, limit: int) {
    var strays := Strays(calls, results);
    && |texts| == |calls| + |strays|
    && (forall k :: 0 <= k < |calls| ==> TellsCall(render, texts[k], calls[k], results, limit))
    && (forall k :: 0 <= k < |strays| ==> IsResultText(render, texts[|calls| + k], results[strays[k]].toolName, results[strays[k]], limit))
  }

  lemma {:induction false} CallsAreTold(render: Renderer, calls: seq<ToolCall>, results: seq<Message>, limit: int)
    ensures forall k :: 0 <= k < |calls| ==> TellsCall(render, CallSummaries(render, calls, results, limit)[k], calls[k], results, limit)
  {
    hide TellsCall;
    forall k | 0 <= k < |calls| ensures TellsCall(render, CallSummaries(render, calls, results, limit)[k], calls[k], results, limit) {
      CallIsTold(render, calls[k], results, limit);
    }
  }

  lemma {:induction false} StraysAreTold(render: Renderer, calls: seq<ToolCall>, results: seq<Message>, limit: int)
    ensures var strays, texts := Strays(calls, results), StraySummaries(render, calls, results, limit);
            |texts| == |strays| && forall k :: 0 <= k < |strays| ==> IsResultText(render, texts[k], results[strays[k]].toolName, results[strays[k]], limit)
  {
    StraysAre(calls, results);
    var strays, texts := Strays(calls, results), StraySummaries(render, calls, results, limit);
    forall k | 0 <= k < |strays| ensures IsResultText(render, texts[k], results[strays[k]].toolName, results[strays[k]], limit) {
      ShownIs(results[strays[k]].toolName);
    }
  }

  lemma {:induction false} GroupIsTold(render: Renderer, calls: seq<ToolCall>, results: seq<Message>, limit: int)
    ensures TellsGroup(render, CallSummaries(render, calls, results, limit) + StraySummaries(render, calls, results, limit), calls, results, limit)
  {
    hide TellsCall, IsResultText, CallSummaries, StraySummaries, Strays;
    CallsAreTold(render, calls, results, limit);
    StraysAreTold(render, calls, results, limit);
    SummariesPerCall(render, calls, results, limit);
  }

  lemma {:induction false} SummariesPerCall(render: Renderer, calls: seq<ToolCall>, results: seq<Message>, limit: int)
    ensures |CallSummaries(render, calls, results, limit)| == |calls|
  {
  }

  // ---------- the compacted range ----------

  /** Where the entry that starts at a message ends: an assistant with calls takes the replies behind it. */
  predicate IsEntry(ms: seq<Message>, at: nat, end: nat, stop: nat)
    requires at < stop <= |ms|
  {
    && at < end <= stop
    && (if ms[at].role.Assistant? && ms[at].calls != []
        then (forall j :: at < j < end ==> ms[j].role.Tool?) && (end < stop ==> !ms[end].role.Tool?)
        else end == at + 1)
  }

  /** What an entry becomes: what its first message says, then the texts of its results. */
  predicate TellsEntry(render: Renderer, said: seq<Message>, texts: seq<Message>, ms: seq<Message>, at: nat, end: nat, limit: int)
    requires at < end <= |ms|
  {
    && said == Said(ms[at])
    && (if ms[at].role.Assistant? && ms[at].calls != [] then TellsGroup(render, texts, ms[at].calls, ms[at + 1..end], limit)
        else if ms[at].role.Tool? then |texts| == 1 && IsResultText(render, texts[0], ms[at].toolName, ms[at], limit)
        else texts == [])
  }

  lemma {:induction false} GroupEntryIsTold(render: Renderer, ms: seq<Message>, at: nat, stop: nat, limit: int) returns (texts: seq<Message>)
    requires at < stop <= |ms| && IsGroupHead(ms[at])
    ensures var entry := OneEntry(render, ms, at, stop, limit);
            && entry.0 == HeadText(ms[at]) + texts && TellsGroup(render, texts, ms[at].calls, ms[at + 1..entry.1], limit)
  {
    hide TellsGroup, HeadText, CallSummaries, StraySummaries;
    var calls, results := ms[at].calls, ms[at + 1..GroupEnd(ms, at + 1, stop)];
    GroupIsTold(render, calls, results, limit);
    var called, strays := CallSummaries(render, calls, results, limit), StraySummaries(render, calls, results, limit);
    texts := called + strays;
    assert HeadText(ms[at]) + called + strays == HeadText(ms[at]) + texts;
  }

  lemma {:induction false} EntryIsTold(render: Renderer, ms: seq<Message>, at: nat, stop: nat, limit: int) returns (texts: seq<Message>)
    requires at < stop <= |ms|
    ensures var entry := OneEntry(render, ms, at, stop, limit);
            && IsEntry(ms, at, entry.1, stop) && entry.0 == Said(ms[at]) + texts
            && TellsEntry(render, Said(ms[at]), texts, ms, at, entry.1, limit)
  {
    hide TellsGroup, Said, HeadText;
    OwnWords(ms[at]);
    if IsGroupHead(ms[at]) {
      texts := GroupEntryIsTold(render, ms, at, stop, limit);
    } else if ms[at].role.Tool? {
      texts := OneEntry(render, ms, at, stop, limit).0;
      ShownIs(ms[at].toolName);
      assert [] + texts == texts;
    } else {
      texts := [];
      assert [ms[at]] + [] == [ms[at]];
    }
  }

  lemma {:induction false} HistoricalStarts(render: Renderer, ms: seq<Message>, from: nat, stop: nat, limit: int)
    requires from < stop <= |ms|
    ensures var entry := OneEntry(render, ms, from, stop, limit);
            Historical(render, ms, from, stop, limit) == entry.0 + Historical(render, ms, entry.1, stop, limit)
  {
  }

  lemma {:induction false} Regroup(a: seq<Message>, b: seq<Message>, c: seq<Message>, d: seq<Message>, e: seq<Message>)
    ensures a + (b + c + d + e) == (a + b) + c + d + e
  {
  }

  /** Every message of an old range that is not a tool reply has its place in the compacted range: right
      after the compacted form of everything before it come what it says and the texts of its results, then
      the compacted form of everything behind its entry. */
  lemma {:induction false} EveryMessageHasItsPlace(render: Renderer, ms: seq<Message>, from: nat, stop: nat, at: nat, limit: int)
      returns (texts: seq<Message>, end: nat)
    requires from <= at < stop <= |ms| && (at == from || !ms[at].role.Tool?)
    ensures at < end <= stop
    ensures IsEntry(ms, at, end, stop) && TellsEntry(render, Said(ms[at]), texts, ms, at, end, limit)
    ensures Historical(render, ms, from, stop, limit) ==
            Historical(render, ms, from, at, limit) + Said(ms[at]) + texts + Historical(render, ms, end, stop, limit)
    decreases at - from
  {
    hide TellsEntry, Said, OneEntry, IsEntry, Historical;
    HistoricalStarts(render, ms, from, stop, limit);
    if at == from {
      texts := EntryIsTold(render, ms, at, stop, limit);
      end := OneEntry(render, ms, at, stop, limit).1;
      NothingBefore(render, ms, from, limit);
      assert [] + Said(ms[at]) + texts == Said(ms[at]) + texts;
    } else {
      var first, next := OneEntry(render, ms, from, stop, limit).0, OneEntry(render, ms, from, stop, limit).1;
      EntryStopsBefore(render, ms, from, stop, at, limit);
      HistoricalStarts(render, ms, from, at, limit);
      texts, end := EveryMessageHasItsPlace(render, ms, next, stop, at, limit);
      Regroup(first, Historical(render, ms, next, at, limit), Said(ms[at]), texts, Historical(render, ms, end, stop, limit));
    }
  }

  lemma {:induction false} NothingBefore(render: Renderer, ms: seq<Message>, from: nat, limit: int)
    requires from <= |ms|
    ensures Historical(render, ms, from, from, limit) == []
  {
  }

  /** An entry ends before a later message that is no tool reply, wherever the range stops. */
  lemma {:induction false} EntryStopsBefore(render: Renderer, ms: seq<Message>, from: nat, stop: nat, at: nat, limit: int)
    requires from < at < stop <= |ms| && !ms[at].role.Tool?
    ensures OneEntry(render, ms, from, stop, limit).1 <= at
    ensures OneEntry(render, ms, from, at, limit) == OneEntry(render, ms, from, stop, limit)
  {
    if IsGroupHead(ms[from]) { GroupEndStops(ms, from + 1, stop, at); }
  }

  lemma {:induction false} GroupEndStops(ms: seq<Message>, from: nat, stop: nat, at: nat)
    requires from <= at < stop <= |ms| && !ms[at].role.Tool?
    ensures GroupEnd(ms, from, stop) <= at && GroupEnd(ms, from, at) == GroupEnd(ms, from, stop)
    decreases at - from
  {
    if from == at {
    } else if ms[from].role.Tool? {
      GroupEndStops(ms, from + 1, stop, at);
    }
  }

  // ---------- which messages are old ----------

  /** The recent part begins behind the leading systems, holds at least `recent` messages unless there
      are no more, and reaches back to the message its first replies answer, no further. */
  predicate IsRecentStart(ms: seq<Message>, lead: nat, start: nat, recent: int)
    requires lead <= |ms| && recent > 0
  {
    && lead <= start <= |ms|
    && (start == lead || (start <= |ms| - recent && !ms[start].role.Tool?))
    && (forall j :: start < j <= |ms| - recent && j < |ms| ==> ms[j].role.Tool?)
  }

  lemma {:induction false} RecentStartIs(ms: seq<Message>, recent: int)
    requires 0 < recent < |ms|
    ensures IsRecentStart(ms, LeadingSystems(ms), RecentStart(ms, recent), recent)
  {
  }

  /** Compaction replaces the old part, if that holds any tool protocol: the leading systems and the
      recent part stay as they are, and between them stands everything the old messages said, in order,
      merged with the texts of their results. */
  lemma {:induction false} CompactionSaysEverything(render: Renderer, ms: seq<Message>, recent: int, limit: int)
      returns (lead: nat, start: nat, told: seq<Message>)
    ensures lead <= start <= |ms| && (forall i :: 0 <= i < lead ==> ms[i].role.System?) && (lead < |ms| ==> !ms[lead].role.System?)
    ensures 0 < recent < |ms| ==> IsRecentStart(ms, lead, start, recent)
    ensures 0 < recent < |ms| && (exists i :: lead <= i < start && (ms[i].role.Tool? || (ms[i].role.Assistant? && ms[i].calls != []))) ==>
              && Compacted(render, ms, recent, limit) == ms[..lead] + Historical(render, ms, lead, start, limit) + ms[start..]
              && Merges(AllSaid(ms[lead..start]), told, Historical(render, ms, lead, start, limit))
              && AllTell(render, told, ms, RangeSources(ms, lead, start), limit)
    ensures !(0 < recent < |ms| && (exists i :: lead <= i < start && (ms[i].role.Tool? || (ms[i].role.Assistant? && ms[i].calls != [])))) ==>
              Compacted(render, ms, recent, limit) == ms
  {
    lead, start, told := LeadingSystems(ms), |ms|, [];
    if 0 < recent < |ms| {
      start := RecentStart(ms, recent);
      RecentStartIs(ms, recent);
      assert Applies(ms, recent) <==> exists i :: lead <= i < start && IsToolHistory(ms[i]);
      told := RangeTellsItsSources(render, ms, lead, start, limit);
      KeptIsSaid(ms, lead, start);
    }
  }

  // ---------- trimming ----------

  /** What a message weighs: a fixed overhead and the bytes of everything it carries. */
  lemma {:induction false} MessageWeighs(m: Message, p: Part, c: ToolCall)
    ensures EstimatedBytes([]) == 0 && EstimatedBytes([m]) == MessageBytes(m)
    ensures MessageBytes(m.(parts := [], calls := [])) == 128 + |m.content| + |m.callID| + |m.toolName|
    ensures MessageBytes(m.(parts := [p] + m.parts)) == MessageBytes(m) + |p.kind| + |p.text| + |p.mime| + |p.data|
    ensures MessageBytes(m.(calls := [c] + m.calls)) == MessageBytes(m) + |c.id| + |c.name| + |c.arguments|
  {
    assert [m][1..] == [] && ([p] + m.parts)[1..] == m.parts && ([c] + m.calls)[1..] == m.calls;
  }

  /** The places a history may be cut: first where its systems end, then behind each entry. */
  lemma {:induction false} BoundariesFollowEntries(ms: seq<Message>, from: nat, k: nat)
    requires from <= |ms|
    ensures Boundary(ms, from, 0) == from
    ensures Boundary(ms, from, k) < |ms| ==> IsEntry(ms, Boundary(ms, from, k), Boundary(ms, from, k + 1), |ms|)
    ensures Boundary(ms, from, k) == |ms| ==> Boundary(ms, from, k + 1) == |ms|
  {
  }

  predicate WithinLimits(p: Policy, ms: seq<Message>) {
    (p.maxMessages > 0 ==> |ms| <= p.maxMessages) && (p.maxBytes > 0 ==> EstimatedBytes(ms) <= p.maxBytes)
  }

  lemma {:induction false} LimitsAlike(p: Policy, ms: seq<Message>)
    ensures WithinLimits(p, ms) <==> !TooBig(p, ms)
  {
  }

  /** A trimmed history keeps its leading systems and a suffix that begins where it may be cut; it is
      within both limits or holds nothing but the newest entry, and no longer suffix is within them. */
  lemma {:induction false} TrimmedFits(ms: seq<Message>, out: seq<Message>, p: Policy) returns (k: nat)
    requires EarliestCut(ms, out, c => !TooBig(p, c))
    ensures var lead := LeadingSystems(ms);
            && lead <= Boundary(ms, lead, k) < |ms| && out == ms[..lead] + ms[Boundary(ms, lead, k)..]
            && (WithinLimits(p, out) || Boundary(ms, lead, k + 1) == |ms|)
            && forall j: nat :: j < k ==> !WithinLimits(p, ms[..lead] + ms[Boundary(ms, lead, j)..])
  {
    hide WithinLimits, TooBig, Boundary, LeadingSystems, Exceeds, EstimatedBytes;
    var lead, ok := LeadingSystems(ms), c => !TooBig(p, c);
    k :| && Boundary(ms, lead, k) < |ms| && out == Candidate(ms, lead, Boundary(ms, lead, k))
         && (forall j: nat :: j < k ==> !ok(Candidate(ms, lead, Boundary(ms, lead, j))))
         && (ok(out) || Boundary(ms, lead, k + 1) == |ms|);
    LimitsAlike(p, out);
    forall j: nat | j < k ensures !WithinLimits(p, ms[..lead] + ms[Boundary(ms, lead, j)..]) {
      var longer := Candidate(ms, lead, Boundary(ms, lead, j));
      assert !ok(longer);
      LimitsAlike(p, longer);
    }
  }
}
