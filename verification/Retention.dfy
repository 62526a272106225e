/** Conversation retention (internal/core/conversation: retention, cost_retention): compaction of
    old tool groups into text, and trimming by message count, bytes or model cost. */
module Retention {
  import opened Text

  datatype Role = System | User | Assistant | Tool

  datatype ToolCall = ToolCall(id: string, name: string, arguments: string)

  datatype Part = Part(kind: string, text: string, mime: string, data: string)

  /** `NewID` is the freshly generated id of a placeholder message. */
  datatype MessageID = ID(id: string) | NewID

  datatype Message = Message(
    id: MessageID, role: Role, content: string, calls: seq<ToolCall>,
    callID: string, toolName: string, parts: seq<Part>)

  /** How a tool result is turned into text: from tool name, raw content and byte limit. */
  type Renderer = (string, string, int) -> string

  predicate IsGroupHead(m: Message) {
    m.role.Assistant? && m.calls != []
  }

  /** Carries tool protocol: a tool reply or an assistant message with calls. */
  predicate IsToolHistory(m: Message) {
    m.role.Tool? || IsGroupHead(m)
  }

  predicate Plain(ms: seq<Message>) {
    forall i :: 0 <= i < |ms| ==> !IsToolHistory(ms[i])
  }

  // ---------- sizes ----------

  function PartsBytes(ps: seq<Part>): nat {
    if ps == [] then 0 else |ps[0].kind| + |ps[0].text| + |ps[0].mime| + |ps[0].data| + PartsBytes(ps[1..])
  }

  function CallsBytes(cs: seq<ToolCall>): nat {
    if cs == [] then 0 else |cs[0].id| + |cs[0].name| + |cs[0].arguments| + CallsBytes(cs[1..])
  }

  function MessageBytes(m: Message): nat {
    128 + |m.content| + |m.callID| + |m.toolName| + PartsBytes(m.parts) + CallsBytes(m.calls)
  }

  function EstimatedBytes(ms: seq<Message>): nat {
    if ms == [] then 0 else MessageBytes(ms[0]) + EstimatedBytes(ms[1..])
  }

  lemma {:induction false} BytesConcat(a: seq<Message>, b: seq<Message>)
    ensures EstimatedBytes(a + b) == EstimatedBytes(a) + EstimatedBytes(b)
  {
    if a == [] {
      assert a + b == b;
    } else {
      assert (a + b)[1..] == a[1..] + b;
      BytesConcat(a[1..], b);
    }
  }

  // ---------- compaction of historical tool groups ----------

  function LeadingSystems(ms: seq<Message>): (n: nat)
    ensures n <= |ms| && (forall i :: 0 <= i < n ==> ms[i].role.System?) && (n < |ms| ==> !ms[n].role.System?)
  {
    if ms == [] || !ms[0].role.System? then 0 else 1 + LeadingSystems(ms[1..])
  }

  /** Walks a cut back over tool replies so that it never separates them from their call. */
  function BackToGroupStart(ms: seq<Message>, cut: nat, floor: nat): (start: nat)
    requires floor <= cut < |ms|
    ensures floor <= start <= cut && (start > floor ==> !ms[start].role.Tool?)
    ensures forall i :: start < i <= cut ==> ms[i].role.Tool?
  {
    if cut > floor && ms[cut].role.Tool? then BackToGroupStart(ms, cut - 1, floor) else cut
  }

  function RecentStart(ms: seq<Message>, recent: int): (start: nat)
    requires 0 < recent < |ms|
    ensures start <= |ms|
  {
    var lead := LeadingSystems(ms);
    var cut := if |ms| - recent < lead then lead else |ms| - recent;
    if cut == |ms| then cut else BackToGroupStart(ms, cut, lead)
  }

  function DisplayName(name: string): string {
    if Trim(name) == "" then "unknown" else Trim(name)
  }

  function Rendered(render: Renderer, name: string, m: Message, limit: int): Message {
    Message(m.id, Assistant, render(DisplayName(name), m.content, limit), [], "", "", [])
  }

  function NotRetained(name: string): Message {
    Message(NewID, Assistant, "Historical tool " + DisplayName(name) + " was requested, but its result is no longer retained.", [], "", "", [])
  }

  function ResultIndex(results: seq<Message>, id: string): (i: int)
    ensures -1 <= i < |results| && (i >= 0 ==> results[i].callID == id)
    ensures forall j :: 0 <= j < (if i < 0 then |results| else i) ==> results[j].callID != id
  {
    if results == [] then -1
    else if results[0].callID == id then 0
    else var k := ResultIndex(results[1..], id); if k < 0 then -1 else k + 1
  }

  predicate HasCall(calls: seq<ToolCall>, id: string) {
    exists i :: 0 <= i < |calls| && calls[i].id == id
  }

  function CallSummary(render: Renderer, call: ToolCall, results: seq<Message>, limit: int): Message {
    var i := ResultIndex(results, call.id);
    if i < 0 then NotRetained(call.name) else Rendered(render, call.name, results[i], limit)
  }

  function CallSummaries(render: Renderer, calls: seq<ToolCall>, results: seq<Message>, limit: int): (out: seq<Message>)
    ensures |out| == |calls| && forall i :: 0 <= i < |out| ==> out[i] == CallSummary(render, calls[i], results, limit)
  {
    seq(|calls|, i requires 0 <= i < |calls| => CallSummary(render, calls[i], results, limit))
  }

  /** Which result each call summary tells; -1 when none is retained. */
  function CallSources(calls: seq<ToolCall>, results: seq<Message>): (sources: seq<int>)
    ensures |sources| == |calls| && forall k :: 0 <= k < |calls| ==> sources[k] == ResultIndex(results, calls[k].id)
  {
    if calls == [] then [] else [ResultIndex(results, calls[0].id)] + CallSources(calls[1..], results)
  }

  /** Which result each stray summary tells. */
  function StraySources(calls: seq<ToolCall>, results: seq<Message>): (sources: seq<int>)
    ensures forall k :: 0 <= k < |sources| ==> 0 <= sources[k] < |results|
  {
    if results == [] then []
    else
      var n := |results| - 1;
      StraySources(calls, results[..n]) + if HasCall(calls, results[n].callID) then [] else [n]
  }

  /** Summaries of the results no call of the group names. */
  function StraySummaries(render: Renderer, calls: seq<ToolCall>, results: seq<Message>, limit: int): (out: seq<Message>)
    ensures Plain(out)
  {
    var sources := StraySources(calls, results);
    seq(|sources|, k requires 0 <= k < |sources| => Rendered(render, results[sources[k]].toolName, results[sources[k]], limit))
  }

  /** The assistant's own text, if it has any. */
  function HeadText(head: Message): seq<Message> {
    if Trim(head.content) != "" || head.parts != [] then [head.(calls := [])] else []
  }

  /** The text of the assistant, one summary per call, then the stray results. */
  function GroupText(render: Renderer, head: Message, results: seq<Message>, limit: int): seq<Message> {
    HeadText(head)
    + CallSummaries(render, head.calls, results, limit)
    + StraySummaries(render, head.calls, results, limit)
  }

  function GroupEnd(ms: seq<Message>, from: nat, stop: nat): (end: nat)
    requires from <= stop <= |ms|
    ensures from <= end <= stop && (forall i :: from <= i < end ==> ms[i].role.Tool?) && (end < stop ==> !ms[end].role.Tool?)
    decreases stop - from
  {
    if from < stop && ms[from].role.Tool? then GroupEnd(ms, from + 1, stop) else from
  }

  /** What one entry of the old part becomes, and where the next one starts. */
  function OneEntry(render: Renderer, ms: seq<Message>, index: nat, stop: nat, limit: int): (e: (seq<Message>, nat))
    requires index < stop <= |ms|
    ensures index < e.1 <= stop
  {
    if IsGroupHead(ms[index]) then
      var end := GroupEnd(ms, index + 1, stop);
      (GroupText(render, ms[index], ms[index + 1..end], limit), end)
    else if ms[index].role.Tool? then ([Rendered(render, ms[index].toolName, ms[index], limit)], index + 1)
    else ([ms[index]], index + 1)
  }

  /** The compacted form of ms[from..stop]. */
  function Historical(render: Renderer, ms: seq<Message>, from: nat, stop: nat, limit: int): seq<Message>
    requires from <= stop <= |ms|
    decreases stop - from
  {
    if from == stop then []
    else
      var (texts, next) := OneEntry(render, ms, from, stop, limit);
      texts + Historical(render, ms, next, stop, limit)
  }

  /** Compaction does something: there is an old part, and it holds tool history. */
  predicate Applies(ms: seq<Message>, recent: int) {
    && 0 < recent < |ms|
    && RecentStart(ms, recent) > LeadingSystems(ms)
    && exists i :: LeadingSystems(ms) <= i < RecentStart(ms, recent) && IsToolHistory(ms[i])
  }

  function Compacted(render: Renderer, ms: seq<Message>, recent: int, limit: int): seq<Message> {
    if !Applies(ms, recent) then ms
    else
      ms[..LeadingSystems(ms)] + Historical(render, ms, LeadingSystems(ms), RecentStart(ms, recent), limit) + ms[RecentStart(ms, recent)..]
  }

  method CompactHistory(render: Renderer, ms: seq<Message>, recent: int, limit: int) returns (out: seq<Message>)
    ensures out == Compacted(render, ms, recent, limit)
  {
    if recent <= 0 || |ms| <= recent { return ms; }
    var lead, start := FindRecent(ms, recent);
    if start <= lead { return ms; }
    var compactable := false;
    for i := lead to start
      invariant !compactable && forall j :: lead <= j < i ==> !IsToolHistory(ms[j])
    {
      if IsToolHistory(ms[i]) {
        compactable := true;
        break;
      }
    }
    if !compactable { return ms; }
    var old_part := CompactRange(render, ms, lead, start, limit);
    out := ms[..lead] + old_part + ms[start..];
  }

  method FindGroupEnd(ms: seq<Message>, from: nat, stop: nat) returns (end: nat)
    requires from <= stop <= |ms|
    ensures end == GroupEnd(ms, from, stop)
  {
    end := from;
    while end < stop && ms[end].role.Tool?
      invariant from <= end <= stop && GroupEnd(ms, from, stop) == GroupEnd(ms, end, stop)
    {
      end := end + 1;
    }
  }

  method CompactEntry(render: Renderer, ms: seq<Message>, index: nat, stop: nat, limit: int) returns (texts: seq<Message>, next: nat)
    requires index < stop <= |ms|
    ensures (texts, next) == OneEntry(render, ms, index, stop, limit)
  {
    next := index + 1;
    if IsGroupHead(ms[index]) {
      next := FindGroupEnd(ms, index + 1, stop);
      texts := SummariseGroup(render, ms[index], ms[index + 1..next], limit);
    } else if ms[index].role.Tool? {
      texts := [Rendered(render, ms[index].toolName, ms[index], limit)];
    } else {
      texts := [ms[index]];
    }
  }

  method AppendEntry(render: Renderer, ms: seq<Message>, out: seq<Message>, index: nat, stop: nat, limit: int)
      returns (longer: seq<Message>, next: nat)
    requires index < stop <= |ms|
    ensures index < next <= stop
    ensures longer + Historical(render, ms, next, stop, limit) == out + Historical(render, ms, index, stop, limit)
  {
    var texts;
    texts, next := CompactEntry(render, ms, index, stop, limit);
    longer := out + texts;
    ghost var rest := Historical(render, ms, next, stop, limit);
    assert longer + rest == out + (texts + rest);
  }

  method CompactRange(render: Renderer, ms: seq<Message>, from: nat, stop: nat, limit: int) returns (out: seq<Message>)
    requires from <= stop <= |ms|
    ensures out == Historical(render, ms, from, stop, limit)
  {
    out := [];
    var index := from;
    ghost var target := Historical(render, ms, from, stop, limit);
    assert [] + target == target;
    while index < stop
      invariant from <= index <= stop
      invariant out + Historical(render, ms, index, stop, limit) == target
    {
      out, index := AppendEntry(render, ms, out, index, stop, limit);
    }
  }

  method CountLeadingSystems(ms: seq<Message>) returns (n: nat)
    ensures n == LeadingSystems(ms)
  {
    n := 0;
    while n < |ms| && ms[n].role.System?
      invariant n <= |ms| && LeadingSystems(ms) == n + LeadingSystems(ms[n..])
    {
      n := n + 1;
    }
  }

  method FindRecent(ms: seq<Message>, recent: int) returns (lead: nat, start: nat)
    requires 0 < recent < |ms|
    ensures lead == LeadingSystems(ms) && start == RecentStart(ms, recent)
  {
    lead := CountLeadingSystems(ms);
    start := if |ms| - recent < lead then lead else |ms| - recent;
    if start == |ms| { return; }
    ghost var cut := start;
    while start > lead && ms[start].role.Tool?
      invariant lead <= start <= cut && BackToGroupStart(ms, start, lead) == BackToGroupStart(ms, cut, lead)
    {
      start := start - 1;
    }
  }

  method SummariseCalls(render: Renderer, calls: seq<ToolCall>, results: seq<Message>, limit: int) returns (out: seq<Message>)
    ensures out == CallSummaries(render, calls, results, limit)
  {
    out := [];
    for i := 0 to |calls|
      invariant |out| == i && forall j :: 0 <= j < i ==> out[j] == CallSummary(render, calls[j], results, limit)
    {
      var k := ResultIndex(results, calls[i].id);
      out := out + [if k < 0 then NotRetained(calls[i].name) else Rendered(render, calls[i].name, results[k], limit)];
    }
  }

  method SummariseStrays(render: Renderer, calls: seq<ToolCall>, results: seq<Message>, limit: int) returns (out: seq<Message>)
    ensures out == StraySummaries(render, calls, results, limit)
  {
    out := [];
    for i := 0 to |results|
      invariant out == StraySummaries(render, calls, results[..i], limit)
    {
      StraysGrow(render, calls, results, i, limit);
      if !HasCall(calls, results[i].callID) {
        out := out + [Rendered(render, results[i].toolName, results[i], limit)];
      }
    }
    assert results[..|results|] == results;
  }

  lemma {:induction false} StraysGrow(render: Renderer, calls: seq<ToolCall>, results: seq<Message>, i: nat, limit: int)
    requires i < |results|
    ensures StraySummaries(render, calls, results[..i + 1], limit) ==
            StraySummaries(render, calls, results[..i], limit) +
            if HasCall(calls, results[i].callID) then [] else [Rendered(render, results[i].toolName, results[i], limit)]
  {
    assert results[..i + 1][..i] == results[..i];
    assert forall k :: 0 <= k < |StraySources(calls, results[..i])| ==>
      results[..i][StraySources(calls, results[..i])[k]] == results[..i + 1][StraySources(calls, results[..i])[k]];
  }

  method SummariseGroup(render: Renderer, head: Message, results: seq<Message>, limit: int) returns (out: seq<Message>)
    ensures out == GroupText(render, head, results, limit)
  {
    out := if Trim(head.content) != "" || |head.parts| > 0 then [head.(calls := [])] else [];
    var called := SummariseCalls(render, head.calls, results, limit);
    var strays := SummariseStrays(render, head.calls, results, limit);
    out := out + called + strays;
  }

  // ---------- what compaction leaves ----------

  lemma {:induction false} PlainConcat(a: seq<Message>, b: seq<Message>)
    requires Plain(a) && Plain(b)
    ensures Plain(a + b)
  {
  }

  lemma {:induction false} GroupTextIsPlain(render: Renderer, head: Message, results: seq<Message>, limit: int)
    requires IsGroupHead(head)
    ensures Plain(GroupText(render, head, results, limit))
  {
    PlainConcat(HeadText(head), CallSummaries(render, head.calls, results, limit));
    PlainConcat(HeadText(head) + CallSummaries(render, head.calls, results, limit), StraySummaries(render, head.calls, results, limit));
  }

  lemma {:induction false} OneEntryIsPlain(render: Renderer, ms: seq<Message>, index: nat, stop: nat, limit: int)
    requires index < stop <= |ms|
    ensures Plain(OneEntry(render, ms, index, stop, limit).0)
  {
    if IsGroupHead(ms[index]) {
      GroupTextIsPlain(render, ms[index], ms[index + 1..GroupEnd(ms, index + 1, stop)], limit);
    }
  }

  lemma {:induction false} HistoricalHasNoToolHistory(render: Renderer, ms: seq<Message>, from: nat, stop: nat, limit: int)
    requires from <= stop <= |ms|
    ensures Plain(Historical(render, ms, from, stop, limit))
    decreases stop - from
  {
    if from == stop {
    } else {
      OneEntryIsPlain(render, ms, from, stop, limit);
      HistoricalHasNoToolHistory(render, ms, OneEntry(render, ms, from, stop, limit).1, stop, limit);
    }
  }

  lemma {:induction false} HistoricalStartsNonSystem(render: Renderer, ms: seq<Message>, from: nat, stop: nat, limit: int)
    requires from < stop <= |ms| && !ms[from].role.System?
    ensures var h := Historical(render, ms, from, stop, limit); h != [] && !h[0].role.System?
  {
  }

  /** When compaction applies: leading systems and the recent tail stay as they are, the tail is at
      least `recent` long and does not begin inside a call/result group, and nothing between them
      carries tool protocol any more. */
  lemma {:induction false} CompactionShape(render: Renderer, ms: seq<Message>, recent: int, limit: int)
    requires Applies(ms, recent)
    ensures var lead, start, out := LeadingSystems(ms), RecentStart(ms, recent), Compacted(render, ms, recent, limit);
            var old_part := Historical(render, ms, lead, start, limit);
            && out == ms[..lead] + old_part + ms[start..]
            && Plain(old_part) && old_part != [] && !old_part[0].role.System?
            && |ms| - start >= recent
            && !ms[start].role.Tool?
            && LeadingSystems(out) == lead
  {
    var lead, start := LeadingSystems(ms), RecentStart(ms, recent);
    HistoricalHasNoToolHistory(render, ms, lead, start, limit);
    HistoricalStartsNonSystem(render, ms, lead, start, limit);
    SystemsThenOther(ms[..lead], Historical(render, ms, lead, start, limit), ms[start..]);
  }

  lemma {:induction false} SystemsThenOther(systems: seq<Message>, old_part: seq<Message>, tail: seq<Message>)
    requires (forall i :: 0 <= i < |systems| ==> systems[i].role.System?) && old_part != [] && !old_part[0].role.System?
    ensures LeadingSystems(systems + old_part + tail) == |systems|
  {
    LeadingSystemsIs(systems + old_part + tail, |systems|);
  }

  lemma {:induction false} LeadingSystemsIs(ms: seq<Message>, n: nat)
    requires n < |ms| && (forall i :: 0 <= i < n ==> ms[i].role.System?) && !ms[n].role.System?
    ensures LeadingSystems(ms) == n
  {
  }

  /** The cut of the compacted history falls where its unchanged tail begins. */
  lemma {:induction false} RecentStartAfterCompaction(ms: seq<Message>, out: seq<Message>, recent: int, lead: nat, start: nat, boundary: nat)
    requires 0 < recent < |ms| && start == RecentStart(ms, recent) > lead == LeadingSystems(ms) == LeadingSystems(out)
    requires lead < boundary <= |out| && |out| - boundary == |ms| - start >= recent && out[boundary..] == ms[start..]
    ensures recent < |out| && RecentStart(out, recent) == boundary
  {
  }

  lemma {:induction false} PlainMiddle(a: seq<Message>, b: seq<Message>, c: seq<Message>)
    requires Plain(b)
    ensures forall i :: |a| <= i < |a| + |b| ==> !IsToolHistory((a + b + c)[i])
  {
  }

  /** Compacting twice changes nothing more. */
  lemma {:induction false} CompactionIsIdempotent(render: Renderer, ms: seq<Message>, recent: int, limit: int)
    ensures var out := Compacted(render, ms, recent, limit); Compacted(render, out, recent, limit) == out
  {
    if Applies(ms, recent) {
      CompactionShape(render, ms, recent, limit);
      var lead, start, out := LeadingSystems(ms), RecentStart(ms, recent), Compacted(render, ms, recent, limit);
      var old_part := Historical(render, ms, lead, start, limit);
      var boundary := lead + |old_part|;
      RecentStartAfterCompaction(ms, out, recent, lead, start, boundary);
      PlainMiddle(ms[..lead], old_part, ms[start..]);
    }
  }

  // ---------- every result of a group is told once ----------

  function Times(sources: seq<int>, i: int): nat {
    if sources == [] then 0 else (if sources[0] == i then 1 else 0) + Times(sources[1..], i)
  }

  lemma {:induction false} TimesConcat(a: seq<int>, b: seq<int>, i: int)
    ensures Times(a + b, i) == Times(a, i) + Times(b, i)
  {
    if a == [] {
      assert a + b == b;
    } else {
      assert (a + b)[1..] == a[1..] + b;
      TimesConcat(a[1..], b, i);
    }
  }

  /** How often a group's text reports its i-th result. */
  function Reports(calls: seq<ToolCall>, results: seq<Message>, i: nat): nat {
    Times(CallSources(calls, results) + StraySources(calls, results), i)
  }

  function CallsNamed(calls: seq<ToolCall>, id: string): nat {
    if calls == [] then 0 else (if calls[0].id == id then 1 else 0) + CallsNamed(calls[1..], id)
  }

  lemma {:induction false} ReportsByCalls(calls: seq<ToolCall>, results: seq<Message>, i: nat)
    requires i < |results|
    ensures Times(CallSources(calls, results), i) ==
            if ResultIndex(results, results[i].callID) == i then CallsNamed(calls, results[i].callID) else 0
  {
    if calls == [] {
    } else {
      ReportsByCalls(calls[1..], results, i);
    }
  }

  lemma {:induction false} ReportsByStrays(calls: seq<ToolCall>, results: seq<Message>, i: nat)
    ensures Times(StraySources(calls, results), i) == if i < |results| && !HasCall(calls, results[i].callID) then 1 else 0
    decreases |results|
  {
    if results == [] {
    } else {
      var n := |results| - 1;
      ReportsByStrays(calls, results[..n], i);
      TimesConcat(StraySources(calls, results[..n]), if HasCall(calls, results[n].callID) then [] else [n], i);
    }
  }

  lemma {:induction false} NamedAtLeastOnce(calls: seq<ToolCall>, id: string)
    ensures CallsNamed(calls, id) > 0 <==> HasCall(calls, id)
  {
    if calls == [] {
    } else {
      NamedAtLeastOnce(calls[1..], id);
      if i :| 0 < i < |calls| && calls[i].id == id { assert calls[1..][i - 1].id == id; }
      if HasCall(calls[1..], id) {
        var i :| 0 <= i < |calls[1..]| && calls[1..][i].id == id;
        assert calls[i + 1].id == id;
      }
    }
  }

  /** Ids are unambiguous between the calls and the results of a group. */
  predicate UnambiguousIDs(calls: seq<ToolCall>, results: seq<Message>) {
    && (forall i, j :: 0 <= i < j < |results| && results[i].callID == results[j].callID ==> !HasCall(calls, results[i].callID))
    && (forall i :: 0 <= i < |results| ==> CallsNamed(calls, results[i].callID) <= 1)
  }

  predicate EachReportedOnce(calls: seq<ToolCall>, results: seq<Message>) {
    forall i :: 0 <= i < |results| ==> Reports(calls, results, i) == 1
  }

  /** Each result is reported exactly once precisely when no id that joins calls and results is repeated. */
  lemma {:induction false} ResultsReportedOnceIffUnambiguous(calls: seq<ToolCall>, results: seq<Message>)
    ensures EachReportedOnce(calls, results) <==> UnambiguousIDs(calls, results)
  {
    forall i | 0 <= i < |results|
      ensures Reports(calls, results, i) ==
              if !HasCall(calls, results[i].callID) then 1
              else if ResultIndex(results, results[i].callID) == i then CallsNamed(calls, results[i].callID) else 0
    {
      TimesConcat(CallSources(calls, results), StraySources(calls, results), i);
      ReportsByCalls(calls, results, i);
      ReportsByStrays(calls, results, i);
      NamedAtLeastOnce(calls, results[i].callID);
    }
    if EachReportedOnce(calls, results) {
      forall i, j | 0 <= i < j < |results| && results[i].callID == results[j].callID ensures !HasCall(calls, results[i].callID) {
        assert Reports(calls, results, j) == 1;
      }
      forall i | 0 <= i < |results| ensures CallsNamed(calls, results[i].callID) <= 1 {
        NamedAtLeastOnce(calls, results[i].callID);
        var first := ResultIndex(results, results[i].callID);
        assert Reports(calls, results, first) == 1;
      }
    }
    if UnambiguousIDs(calls, results) {
      forall i | 0 <= i < |results| ensures Reports(calls, results, i) == 1 {
        NamedAtLeastOnce(calls, results[i].callID);
        var first := ResultIndex(results, results[i].callID);
      }
    }
  }

  // ---------- every result of the compacted range is told once ----------

  /** Sources of one entry, as positions in the history; -1 for a call without a result. */
  function EntrySources(ms: seq<Message>, index: nat, stop: nat): seq<int>
    requires index < stop <= |ms|
  {
    if IsGroupHead(ms[index]) then
      var results := ms[index + 1..GroupEnd(ms, index + 1, stop)];
      Shifted(CallSources(ms[index].calls, results) + StraySources(ms[index].calls, results), index + 1)
    else if ms[index].role.Tool? then [index] else []
  }

  function EntryEnd(ms: seq<Message>, index: nat, stop: nat): (end: nat)
    requires index < stop <= |ms|
    ensures index < end <= stop
  {
    if IsGroupHead(ms[index]) then GroupEnd(ms, index + 1, stop) else index + 1
  }

  function Shifted(sources: seq<int>, offset: nat): (out: seq<int>)
    ensures |out| == |sources| && forall k :: 0 <= k < |out| ==> out[k] == if sources[k] < 0 then -1 else sources[k] + offset
  {
    if sources == [] then [] else [if sources[0] < 0 then -1 else sources[0] + offset] + Shifted(sources[1..], offset)
  }

  /** Positions of the results told by the compacted form of ms[from..stop], in order. */
  function RangeSources(ms: seq<Message>, from: nat, stop: nat): seq<int>
    requires from <= stop <= |ms|
    decreases stop - from
  {
    if from == stop then [] else EntrySources(ms, from, stop) + RangeSources(ms, EntryEnd(ms, from, stop), stop)
  }

  /** Every group in the range has unambiguous ids. */
  predicate RangeUnambiguous(ms: seq<Message>, from: nat, stop: nat)
    requires from <= stop <= |ms|
    decreases stop - from
  {
    from == stop ||
    (&& (IsGroupHead(ms[from]) ==> UnambiguousIDs(ms[from].calls, ms[from + 1..GroupEnd(ms, from + 1, stop)]))
     && RangeUnambiguous(ms, EntryEnd(ms, from, stop), stop))
  }

  lemma {:induction false} ShiftedTimes(sources: seq<int>, offset: nat, i: int)
    requires i >= 0
    ensures Times(Shifted(sources, offset), i) == if i < offset then 0 else Times(sources, i - offset)
  {
    if sources == [] {
    } else {
      ShiftedTimes(sources[1..], offset, i);
    }
  }

  /** The text renders the source-th message, or says that a call has no retained result. */
  ghost predicate Tells(render: Renderer, text: Message, ms: seq<Message>, source: int, limit: int) {
    if source < 0 then exists name :: text == NotRetained(name)
    else source < |ms| && exists name :: text == Rendered(render, name, ms[source], limit)
  }

  ghost predicate AllTell(render: Renderer, texts: seq<Message>, ms: seq<Message>, sources: seq<int>, limit: int) {
    |texts| == |sources| && forall k :: 0 <= k < |texts| ==> Tells(render, texts[k], ms, sources[k], limit)
  }

  lemma {:induction false} CallsTell(render: Renderer, calls: seq<ToolCall>, results: seq<Message>, limit: int)
    ensures AllTell(render, CallSummaries(render, calls, results, limit), results, CallSources(calls, results), limit)
  {
    var sources := CallSources(calls, results);
    forall k | 0 <= k < |calls| ensures Tells(render, CallSummary(render, calls[k], results, limit), results, sources[k], limit) {
      var summary := CallSummary(render, calls[k], results, limit);
      assert summary == if sources[k] < 0 then NotRetained(calls[k].name) else Rendered(render, calls[k].name, results[sources[k]], limit);
    }
  }

  lemma {:induction false} StraysTell(render: Renderer, calls: seq<ToolCall>, results: seq<Message>, limit: int)
    ensures AllTell(render, StraySummaries(render, calls, results, limit), results, StraySources(calls, results), limit)
  {
    var texts, sources := StraySummaries(render, calls, results, limit), StraySources(calls, results);
    forall k | 0 <= k < |sources| ensures Tells(render, texts[k], results, sources[k], limit) {
      assert texts[k] == Rendered(render, results[sources[k]].toolName, results[sources[k]], limit);
    }
  }

  lemma {:induction false} AllTellConcat(render: Renderer, a: seq<Message>, b: seq<Message>, ms: seq<Message>, x: seq<int>, y: seq<int>, limit: int)
    requires AllTell(render, a, ms, x, limit) && AllTell(render, b, ms, y, limit)
    ensures AllTell(render, a + b, ms, x + y, limit)
  {
    hide Tells;
    forall k | 0 <= k < |a + b| ensures Tells(render, (a + b)[k], ms, (x + y)[k], limit) {
      assert k < |a| ==> Tells(render, a[k], ms, x[k], limit);
      assert k >= |a| ==> Tells(render, b[k - |a|], ms, y[k - |a|], limit);
    }
  }

  lemma {:induction false} AllTellShifted(render: Renderer, texts: seq<Message>, ms: seq<Message>, from: nat, to: nat, sources: seq<int>, limit: int)
    requires from <= to <= |ms| && AllTell(render, texts, ms[from..to], sources, limit)
    ensures AllTell(render, texts, ms, Shifted(sources, from), limit)
  {
    forall k | 0 <= k < |texts| ensures Tells(render, texts[k], ms, Shifted(sources, from)[k], limit) {
      assert Tells(render, texts[k], ms[from..to], sources[k], limit);
      assert sources[k] >= 0 ==> ms[from..to][sources[k]] == ms[sources[k] + from];
    }
  }

  lemma {:induction false} GroupTells(render: Renderer, head: Message, results: seq<Message>, limit: int) returns (told: seq<Message>)
    ensures GroupText(render, head, results, limit) == HeadText(head) + told
    ensures AllTell(render, told, results, CallSources(head.calls, results) + StraySources(head.calls, results), limit)
  {
    var summaries, strays := CallSummaries(render, head.calls, results, limit), StraySummaries(render, head.calls, results, limit);
    CallsTell(render, head.calls, results, limit);
    StraysTell(render, head.calls, results, limit);
    AllTellConcat(render, summaries, strays, results, CallSources(head.calls, results), StraySources(head.calls, results), limit);
    told := summaries + strays;
    assert HeadText(head) + summaries + strays == HeadText(head) + told;
  }

  function OwnText(m: Message): seq<Message> {
    if IsGroupHead(m) then HeadText(m) else []
  }

  lemma {:induction false} GroupEntryTells(render: Renderer, ms: seq<Message>, index: nat, stop: nat, limit: int) returns (told: seq<Message>)
    requires index < stop <= |ms| && IsGroupHead(ms[index])
    ensures OneEntry(render, ms, index, stop, limit).0 == HeadText(ms[index]) + told
    ensures AllTell(render, told, ms, EntrySources(ms, index, stop), limit)
  {
    hide AllTell, GroupText, HeadText, Shifted, CallSources, StraySources;
    var end := GroupEnd(ms, index + 1, stop);
    told := GroupTells(render, ms[index], ms[index + 1..end], limit);
    AllTellShifted(render, told, ms, index + 1, end,
                   CallSources(ms[index].calls, ms[index + 1..end]) + StraySources(ms[index].calls, ms[index + 1..end]), limit);
  }

  /** An entry of tool history becomes the assistant's own text, if any, and then one text for each
      of its sources, in order. */
  lemma {:induction false} EntryTellsItsSources(render: Renderer, ms: seq<Message>, index: nat, stop: nat, limit: int) returns (told: seq<Message>)
    requires index < stop <= |ms| && IsToolHistory(ms[index])
    ensures OneEntry(render, ms, index, stop, limit).0 == OwnText(ms[index]) + told
    ensures AllTell(render, told, ms, EntrySources(ms, index, stop), limit)
  {
    if IsGroupHead(ms[index]) {
      told := GroupEntryTells(render, ms, index, stop, limit);
    } else {
      told := [Rendered(render, ms[index].toolName, ms[index], limit)];
      assert Tells(render, told[0], ms, index, limit);
    }
  }

  /** `all` interleaves two lists, each in its own order. */
  predicate Merges(a: seq<Message>, b: seq<Message>, all: seq<Message>)
    decreases |all|
  {
    if all == [] then a == [] && b == []
    else
      || (a != [] && all[0] == a[0] && Merges(a[1..], b, all[1..]))
      || (b != [] && all[0] == b[0] && Merges(a, b[1..], all[1..]))
  }

  lemma {:induction false} MergesOne(a: seq<Message>)
    ensures Merges(a, [], a) && Merges([], a, a)
  {
    if a == [] {
    } else {
      MergesOne(a[1..]);
    }
  }

  lemma {:induction false} MergesConcat(a: seq<Message>, b: seq<Message>, all: seq<Message>, c: seq<Message>, d: seq<Message>, more: seq<Message>)
    requires Merges(a, b, all) && Merges(c, d, more)
    ensures Merges(a + c, b + d, all + more)
    decreases |all|
  {
    if all == [] {
      assert a + c == c && b + d == d && all + more == more;
    } else {
      assert (all + more)[1..] == all[1..] + more;
      if a != [] && all[0] == a[0] && Merges(a[1..], b, all[1..]) {
        MergesConcat(a[1..], b, all[1..], c, d, more);
        assert (a + c)[1..] == a[1..] + c;
      } else {
        MergesConcat(a, b[1..], all[1..], c, d, more);
        assert (b + d)[1..] == b[1..] + d;
      }
    }
  }

  /** What compaction keeps of ms[from..stop] besides tool results: plain messages as they are, and
      the own text of assistants that called tools. */
  function RangeKept(ms: seq<Message>, from: nat, stop: nat): seq<Message>
    requires from <= stop <= |ms|
    decreases stop - from
  {
    if from == stop then []
    else (if IsToolHistory(ms[from]) then OwnText(ms[from]) else [ms[from]]) + RangeKept(ms, EntryEnd(ms, from, stop), stop)
  }

  lemma {:induction false} EntryMerges(render: Renderer, ms: seq<Message>, from: nat, stop: nat, limit: int) returns (told: seq<Message>)
    requires from < stop <= |ms|
    ensures OneEntry(render, ms, from, stop, limit).1 == EntryEnd(ms, from, stop)
    ensures AllTell(render, told, ms, EntrySources(ms, from, stop), limit)
    ensures Merges(if IsToolHistory(ms[from]) then OwnText(ms[from]) else [ms[from]], told, OneEntry(render, ms, from, stop, limit).0)
  {
    if IsToolHistory(ms[from]) {
      told := EntryTellsItsSources(render, ms, from, stop, limit);
      MergesOne(OwnText(ms[from]));
      MergesOne(told);
      MergesConcat(OwnText(ms[from]), [], OwnText(ms[from]), [], told, told);
      assert OwnText(ms[from]) + [] == OwnText(ms[from]) && [] + told == told;
    } else {
      told := [];
      MergesOne([ms[from]]);
    }
  }

  /** The compacted range is what is kept, in order, merged with one text for each of its sources, in
      order, and nothing else. */
  lemma {:induction false} RangeTellsItsSources(render: Renderer, ms: seq<Message>, from: nat, stop: nat, limit: int) returns (told: seq<Message>)
    requires from <= stop <= |ms|
    ensures AllTell(render, told, ms, RangeSources(ms, from, stop), limit)
    ensures Merges(RangeKept(ms, from, stop), told, Historical(render, ms, from, stop, limit))
    decreases stop - from
  {
    if from == stop {
      told := [];
    } else {
      var end := EntryEnd(ms, from, stop);
      var first := EntryMerges(render, ms, from, stop, limit);
      var rest := RangeTellsItsSources(render, ms, end, stop, limit);
      told := first + rest;
      AllTellConcat(render, first, rest, ms, EntrySources(ms, from, stop), RangeSources(ms, end, stop), limit);
      MergesConcat(if IsToolHistory(ms[from]) then OwnText(ms[from]) else [ms[from]], first, OneEntry(render, ms, from, stop, limit).0,
                   RangeKept(ms, end, stop), rest, Historical(render, ms, end, stop, limit));
    }
  }

  /** No group tells of a result beyond its own. */
  lemma {:induction false} GroupTellsItsOwn(calls: seq<ToolCall>, results: seq<Message>, i: int)
    requires i >= |results|
    ensures Times(CallSources(calls, results) + StraySources(calls, results), i) == 0
  {
    TimesConcat(CallSources(calls, results), StraySources(calls, results), i);
    ReportsByStrays(calls, results, i);
    CallsTellKnown(calls, results, i);
  }

  lemma {:induction false} CallsTellKnown(calls: seq<ToolCall>, results: seq<Message>, i: int)
    requires i >= |results|
    ensures Times(CallSources(calls, results), i) == 0
  {
    if calls == [] {
    } else {
      CallsTellKnown(calls[1..], results, i);
    }
  }

  /** An entry tells of the results inside it and of no others. */
  lemma {:induction false} EntryTimes(ms: seq<Message>, index: nat, stop: nat, i: nat)
    requires index < stop <= |ms|
    ensures var end := EntryEnd(ms, index, stop);
            Times(EntrySources(ms, index, stop), i) ==
              if !(index <= i < end) || !ms[i].role.Tool? then 0
              else if IsGroupHead(ms[index]) then Reports(ms[index].calls, ms[index + 1..end], i - index - 1)
              else 1
  {
    if IsGroupHead(ms[index]) {
      hide Times, CallSources, StraySources;
      var results := ms[index + 1..GroupEnd(ms, index + 1, stop)];
      ShiftedTimes(CallSources(ms[index].calls, results) + StraySources(ms[index].calls, results), index + 1, i);
      if i - index - 1 >= |results| { GroupTellsItsOwn(ms[index].calls, results, i - index - 1); }
    }
  }

  lemma {:induction false} RangeTellsItsOwn(ms: seq<Message>, from: nat, stop: nat, i: nat)
    requires i < from <= stop <= |ms|
    ensures Times(RangeSources(ms, from, stop), i) == 0
    decreases stop - from
  {
    if from == stop {
    } else {
      var end := EntryEnd(ms, from, stop);
      TimesConcat(EntrySources(ms, from, stop), RangeSources(ms, end, stop), i);
      EntryTimes(ms, from, stop, i);
      RangeTellsItsOwn(ms, end, stop, i);
    }
  }

  ghost predicate ToldOnce(ms: seq<Message>, from: nat, to: nat, stop: nat)
    requires from <= to <= stop <= |ms|
  {
    forall i :: from <= i < to && ms[i].role.Tool? ==> Times(RangeSources(ms, from, stop), i) == 1
  }

  /** In a range, a result inside the first entry is told by that entry alone. */
  lemma {:induction false} FirstEntryTimes(ms: seq<Message>, from: nat, stop: nat, i: nat)
    requires from < stop <= |ms| && from <= i < EntryEnd(ms, from, stop) && ms[i].role.Tool?
    ensures Times(RangeSources(ms, from, stop), i) ==
            if IsGroupHead(ms[from]) then Reports(ms[from].calls, ms[from + 1..EntryEnd(ms, from, stop)], i - from - 1) else 1
  {
    var end := EntryEnd(ms, from, stop);
    TimesConcat(EntrySources(ms, from, stop), RangeSources(ms, end, stop), i);
    RangeTellsItsOwn(ms, end, stop, i);
    EntryTimes(ms, from, stop, i);
  }

  lemma {:induction false} GroupToldOnce(ms: seq<Message>, from: nat, stop: nat)
    requires from < stop <= |ms| && IsGroupHead(ms[from])
    ensures var end := EntryEnd(ms, from, stop);
            ToldOnce(ms, from, end, stop) <==> EachReportedOnce(ms[from].calls, ms[from + 1..end])
  {
    var end := EntryEnd(ms, from, stop);
    var calls, results := ms[from].calls, ms[from + 1..end];
    forall i: nat | from < i < end
      ensures ms[i].role.Tool? && Times(RangeSources(ms, from, stop), i) == Reports(calls, results, i - from - 1)
    {
      FirstEntryTimes(ms, from, stop, i);
    }
    forall k: nat | k < |results| && ToldOnce(ms, from, end, stop) ensures Reports(calls, results, k) == 1 {
      assert ms[from + 1 + k].role.Tool?;
    }
  }

  /** The first entry of a range has its results told once exactly when its ids are unambiguous. */
  lemma {:induction false} EntryToldOnce(ms: seq<Message>, from: nat, stop: nat)
    requires from < stop <= |ms|
    ensures var end := EntryEnd(ms, from, stop);
            ToldOnce(ms, from, end, stop) <==> (IsGroupHead(ms[from]) ==> UnambiguousIDs(ms[from].calls, ms[from + 1..end]))
  {
    if IsGroupHead(ms[from]) {
      GroupToldOnce(ms, from, stop);
      ResultsReportedOnceIffUnambiguous(ms[from].calls, ms[from + 1..EntryEnd(ms, from, stop)]);
    } else if ms[from].role.Tool? {
      FirstEntryTimes(ms, from, stop, from);
    }
  }

  /** Over the whole compacted range, each tool result is told exactly once if and only if every
      call/result group in it has unambiguous ids. */
  lemma {:induction false} RangeToldOnceIffUnambiguous(ms: seq<Message>, from: nat, stop: nat)
    requires from <= stop <= |ms|
    ensures ToldOnce(ms, from, stop, stop) <==> RangeUnambiguous(ms, from, stop)
    decreases stop - from
  {
    if from == stop {
    } else {
      var end := EntryEnd(ms, from, stop);
      EntryToldOnce(ms, from, stop);
      RangeToldOnceIffUnambiguous(ms, end, stop);
      forall i: nat | end <= i < stop
        ensures Times(RangeSources(ms, from, stop), i) == Times(RangeSources(ms, end, stop), i)
      {
        TimesConcat(EntrySources(ms, from, stop), RangeSources(ms, end, stop), i);
        EntryTimes(ms, from, stop, i);
      }
    }
  }

  // ---------- spans and trimming ----------

  datatype Span = Span(start: nat, end: nat, bytes: nat)

  /** Consecutive, gap-free spans over ms[from..], each an assistant group or one message. */
  predicate SpansCover(ms: seq<Message>, from: nat, to: nat, spans: seq<Span>) {
    && from <= to <= |ms|
    && (if spans == [] then from == to else spans[0].start == from && spans[|spans| - 1].end == to)
    && (forall k :: 0 <= k < |spans| ==>
          && from <= spans[k].start < spans[k].end <= to
          && spans[k].bytes == EstimatedBytes(ms[spans[k].start..spans[k].end])
          && spans[k].end == SpanEnd(ms, spans[k].start))
    && (forall k :: 0 <= k < |spans| - 1 ==> spans[k].end == spans[k + 1].start)
  }

  function SpanEnd(ms: seq<Message>, start: nat): nat
    requires start < |ms|
  {
    if IsGroupHead(ms[start]) then GroupEnd(ms, start + 1, |ms|) else start + 1
  }

  method BuildSpans(ms: seq<Message>, from: nat) returns (spans: seq<Span>)
    requires from <= |ms|
    ensures SpansCover(ms, from, |ms|, spans)
  {
    spans := [];
    var index := from;
    while index < |ms|
      invariant from <= index <= |ms| && SpansCover(ms, from, index, spans)
    {
      var end := index + 1;
      if IsGroupHead(ms[index]) { end := FindGroupEnd(ms, index + 1, |ms|); }
      var bytes := SumBytes(ms, index, end);
      ghost var before := spans;
      spans := spans + [Span(index, end, bytes)];
      SpanAppended(ms, from, index, before, Span(index, end, bytes));
      index := end;
    }
  }

  method SumBytes(ms: seq<Message>, from: nat, to: nat) returns (bytes: nat)
    requires from <= to <= |ms|
    ensures bytes == EstimatedBytes(ms[from..to])
  {
    bytes := 0;
    for i := from to to
      invariant bytes == EstimatedBytes(ms[from..i])
    {
      assert ms[from..i + 1] == ms[from..i] + [ms[i]];
      BytesConcat(ms[from..i], [ms[i]]);
      bytes := bytes + MessageBytes(ms[i]);
    }
  }

  lemma {:induction false} SpanAppended(ms: seq<Message>, from: nat, to: nat, spans: seq<Span>, next: Span)
    requires SpansCover(ms, from, to, spans) && to < |ms|
    requires next.start == to && next.end == SpanEnd(ms, to) && next.bytes == EstimatedBytes(ms[to..next.end])
    ensures SpansCover(ms, from, next.end, spans + [next])
  {
  }

  /** What is left when everything between the leading systems and `start` is dropped. */
  function Candidate(ms: seq<Message>, lead: nat, start: nat): seq<Message>
    requires lead <= start <= |ms|
  {
    ms[..lead] + ms[start..]
  }

  /** The k-th place where the history may be cut. */
  function Boundary(ms: seq<Message>, from: nat, k: nat): (b: nat)
    requires from <= |ms|
    ensures from <= b <= |ms|
    decreases k
  {
    if k == 0 then from
    else var b := Boundary(ms, from, k - 1); if b == |ms| then b else SpanEnd(ms, b)
  }

  lemma {:induction false} SpanStartsAreBoundaries(ms: seq<Message>, from: nat, spans: seq<Span>, k: nat)
    requires SpansCover(ms, from, |ms|, spans) && k < |spans|
    ensures Boundary(ms, from, k) == spans[k].start
  {
    if k == 0 {
    } else {
      SpanStartsAreBoundaries(ms, from, spans, k - 1);
      assert spans[k - 1].end == spans[k].start;
    }
  }

  datatype Policy = Policy(maxMessages: int, maxBytes: int, recent: int, toolBytes: int)

  predicate Exceeds(p: Policy, messages: int, bytes: int) {
    (p.maxMessages > 0 && messages > p.maxMessages) || (p.maxBytes > 0 && bytes > p.maxBytes)
  }

  predicate TooBig(p: Policy, ms: seq<Message>) {
    Exceeds(p, |ms|, EstimatedBytes(ms))
  }

  /** `out` cuts ms at the earliest boundary that satisfies `ok`, or keeps only the newest span. */
  ghost predicate EarliestCut(ms: seq<Message>, out: seq<Message>, ok: seq<Message> -> bool) {
    var lead := LeadingSystems(ms);
    lead < |ms| &&
    exists k: nat ::
      && Boundary(ms, lead, k) < |ms|
      && out == Candidate(ms, lead, Boundary(ms, lead, k))
      && (forall j: nat :: j < k ==> !ok(Candidate(ms, lead, Boundary(ms, lead, j))))
      && (ok(out) || Boundary(ms, lead, k + 1) == |ms|)
  }

  lemma {:induction false} NextCutCounts(ms: seq<Message>, lead: nat, start: nat, end: nat)
    requires lead <= start <= end <= |ms|
    ensures |Candidate(ms, lead, end)| == |Candidate(ms, lead, start)| - (end - start)
    ensures EstimatedBytes(Candidate(ms, lead, end)) == EstimatedBytes(Candidate(ms, lead, start)) - EstimatedBytes(ms[start..end])
  {
    BytesConcat(ms[..lead], ms[start..]);
    BytesConcat(ms[..lead], ms[end..]);
    BytesConcat(ms[start..end], ms[end..]);
    assert ms[start..] == ms[start..end] + ms[end..];
  }

  lemma {:induction false} SpanBytesAdd(ms: seq<Message>, lead: nat, at: nat, span: Span)
    requires lead <= at == span.start <= span.end <= |ms| && span.bytes == EstimatedBytes(ms[span.start..span.end])
    ensures EstimatedBytes(ms[..span.end]) == EstimatedBytes(ms[..at]) + span.bytes
  {
    BytesConcat(ms[..at], ms[span.start..span.end]);
    assert ms[..span.end] == ms[..at] + ms[span.start..span.end];
  }

  /** Protected bytes plus the bytes of all spans. */
  method SumSpans(ms: seq<Message>, lead: nat, spans: seq<Span>) returns (bytes: nat)
    requires lead <= |ms| && SpansCover(ms, lead, |ms|, spans)
    ensures bytes == EstimatedBytes(Candidate(ms, lead, lead))
  {
    bytes := SumBytes(ms, 0, lead);
    assert ms[0..lead] == ms[..lead];
    ghost var at := lead;
    for i := 0 to |spans|
      invariant lead <= at <= |ms| && at == (if i < |spans| then spans[i].start else |ms|)
      invariant bytes == EstimatedBytes(ms[..at])
    {
      SpanBytesAdd(ms, lead, at, spans[i]);
      at := spans[i].end;
      bytes := bytes + spans[i].bytes;
    }
    assert ms[..|ms|] == Candidate(ms, lead, lead);
  }

  /** The running counters of the trimming loop always equal the recomputed sizes of what would be kept. */
  method DropOldest(ms: seq<Message>, lead: nat, spans: seq<Span>, p: Policy) returns (drop: nat)
    requires lead <= |ms| && spans != [] && SpansCover(ms, lead, |ms|, spans)
    ensures drop < |spans|
    ensures forall j :: 0 <= j < drop ==> TooBig(p, Candidate(ms, lead, spans[j].start))
    ensures drop == |spans| - 1 || !TooBig(p, Candidate(ms, lead, spans[drop].start))
  {
    var retainedMessages, retainedBytes: int := |ms|, 0;
    retainedBytes := SumSpans(ms, lead, spans);
    drop := 0;
    while drop < |spans| - 1 && Exceeds(p, retainedMessages, retainedBytes)
      invariant drop < |spans|
      invariant retainedMessages == |Candidate(ms, lead, spans[drop].start)|
      invariant retainedBytes == EstimatedBytes(Candidate(ms, lead, spans[drop].start))
      invariant forall j :: 0 <= j < drop ==> TooBig(p, Candidate(ms, lead, spans[j].start))
    {
      assert spans[drop].end == spans[drop + 1].start;
      NextCutCounts(ms, lead, spans[drop].start, spans[drop].end);
      retainedMessages := retainedMessages - (spans[drop].end - spans[drop].start);
      retainedBytes := retainedBytes - spans[drop].bytes;
      drop := drop + 1;
    }
  }

  lemma {:induction false} CutAtSpan(ms: seq<Message>, spans: seq<Span>, drop: nat, ok: seq<Message> -> bool)
    requires SpansCover(ms, LeadingSystems(ms), |ms|, spans) && drop < |spans|
    requires forall j :: 0 <= j < drop ==> !ok(Candidate(ms, LeadingSystems(ms), spans[j].start))
    requires drop == |spans| - 1 || ok(Candidate(ms, LeadingSystems(ms), spans[drop].start))
    ensures EarliestCut(ms, Candidate(ms, LeadingSystems(ms), spans[drop].start), ok)
  {
    var lead := LeadingSystems(ms);
    forall j: nat | j <= drop ensures Boundary(ms, lead, j) == spans[j].start {
      SpanStartsAreBoundaries(ms, lead, spans, j);
    }
    var out := Candidate(ms, lead, spans[drop].start);
    assert drop == |spans| - 1 ==> Boundary(ms, lead, drop + 1) == |ms|;
    assert Boundary(ms, lead, drop) < |ms| && out == Candidate(ms, lead, Boundary(ms, lead, drop));
  }

  /** Live-history retention by message count and bytes. */
  method Retain(render: Renderer, messages: seq<Message>, p: Policy) returns (out: seq<Message>)
    ensures var ms := Compacted(render, messages, p.recent, p.toolBytes);
            if messages == [] then out == []
            else if !TooBig(p, ms) || LeadingSystems(ms) == |ms| then out == ms
            else EarliestCut(ms, out, c => !TooBig(p, c))
    ensures NoOrphans(messages) ==> NoOrphans(out)
  {
    if NoOrphans(messages) { CompactionKeepsProtocol(render, messages, p.recent, p.toolBytes); }
    if |messages| == 0 { return []; }
    var ms := CompactHistory(render, messages, p.recent, p.toolBytes);
    if !TooBig(p, ms) { return ms; }
    var lead := CountLeadingSystems(ms);
    var spans := BuildSpans(ms, lead);
    if |spans| == 0 { return ms; }
    var drop := DropOldest(ms, lead, spans, p);
    out := Candidate(ms, lead, spans[drop].start);
    CutAtSpan(ms, spans, drop, c => !TooBig(p, c));
    if NoOrphans(messages) { EarliestCutKeepsProtocol(ms, out, c => !TooBig(p, c)); }
  }

  datatype Option<+T> = None | Some(value: T)

  /** Model-facing cost; None stands for an estimator error. */
  type CostEstimator = seq<Message> -> Option<int>

  predicate Within(cost: CostEstimator, budget: int, ms: seq<Message>) {
    cost(ms).Some? && cost(ms).value <= budget
  }

  /** The history cut at its k-th boundary; the zeroth cut is the whole history. */
  function Cut(ms: seq<Message>, k: nat): seq<Message> {
    Candidate(ms, LeadingSystems(ms), Boundary(ms, LeadingSystems(ms), k))
  }

  /** The estimator prices the first k cuts, each above the budget. */
  ghost predicate AllTooDear(ms: seq<Message>, cost: CostEstimator, budget: int, k: nat) {
    forall j: nat :: j < k ==> cost(Cut(ms, j)).Some? && !Within(cost, budget, Cut(ms, j))
  }

  /** The estimator is asked about the cuts in order until one is within the budget; it answers all
      before the k-th and has no answer for that one. */
  ghost predicate FailsAt(ms: seq<Message>, cost: CostEstimator, budget: int, k: nat) {
    && (k == 0 || Boundary(ms, LeadingSystems(ms), k) < |ms|)
    && AllTooDear(ms, cost, budget, k) && cost(Cut(ms, k)).None?
  }

  /** Trimming by model cost; it fails if and only if the estimator does on a cut it is asked about. */
  method RetainByCost(render: Renderer, messages: seq<Message>, recent: int, toolBytes: int, budget: int, cost: CostEstimator)
      returns (out: Option<seq<Message>>)
    ensures var ms := Compacted(render, messages, recent, toolBytes);
            && (messages == [] ==> out == Some([]))
            && (messages != [] && (budget <= 0 || Within(cost, budget, ms)) ==> out == Some(ms))
            && (messages != [] && budget > 0 && out.Some? && !Within(cost, budget, ms) ==>
                  if LeadingSystems(ms) == |ms| then out == Some(ms) else EarliestCut(ms, out.value, c => Within(cost, budget, c)))
            && (messages != [] && budget > 0 ==> (out.None? <==> exists k: nat :: FailsAt(ms, cost, budget, k)))
            && (messages != [] && budget > 0 && out.Some? ==> cost(out.value).Some?)
    ensures NoOrphans(messages) && out.Some? ==> NoOrphans(out.value)
  {
    if NoOrphans(messages) { CompactionKeepsProtocol(render, messages, recent, toolBytes); }
    if |messages| == 0 { return Some([]); }
    var ms := CompactHistory(render, messages, recent, toolBytes);
    if budget <= 0 { return Some(ms); }
    var c := cost(ms);
    assert Cut(ms, 0) == ms;
    if c.None? {
      assert FailsAt(ms, cost, budget, 0);
      return None;
    }
    if c.value <= budget || LeadingSystems(ms) == |ms| { AnsweredStart(ms, cost, budget); }
    if c.value <= budget { return Some(ms); }
    var lead := CountLeadingSystems(ms);
    var spans := BuildSpans(ms, lead);
    if |spans| == 0 { return Some(ms); }
    out := DropByCost(ms, spans, budget, cost);
    if out.Some? && NoOrphans(messages) { EarliestCutKeepsProtocol(ms, out.value, x => Within(cost, budget, x)); }
  }

  /** Nothing fails when the whole history is priced and either fits or cannot be cut. */
  lemma {:induction false} AnsweredStart(ms: seq<Message>, cost: CostEstimator, budget: int)
    requires cost(ms).Some? && (Within(cost, budget, ms) || LeadingSystems(ms) == |ms|)
    ensures forall k: nat :: !FailsAt(ms, cost, budget, k)
  {
    assert Cut(ms, 0) == ms;
    forall k: nat ensures !FailsAt(ms, cost, budget, k) {
      if LeadingSystems(ms) == |ms| { BoundaryAtEnd(ms, |ms|, k); }
    }
  }

  lemma {:induction false} BoundaryAtEnd(ms: seq<Message>, from: nat, k: nat)
    requires from == |ms|
    ensures Boundary(ms, from, k) == |ms|
  {
    if k == 0 {
    } else {
      BoundaryAtEnd(ms, from, k - 1);
    }
  }

  lemma {:induction false} NoBoundaryPastTheSpans(ms: seq<Message>, from: nat, spans: seq<Span>, k: nat)
    requires SpansCover(ms, from, |ms|, spans) && spans != [] && k >= |spans|
    ensures Boundary(ms, from, k) == |ms|
  {
    if k == |spans| {
      SpanStartsAreBoundaries(ms, from, spans, k - 1);
    } else {
      NoBoundaryPastTheSpans(ms, from, spans, k - 1);
    }
  }

  /** A cut reached with every earlier one priced and too dear, itself priced and either within the
      budget or the newest span: the estimator failed nowhere. */
  lemma {:induction false} AnsweredThroughout(ms: seq<Message>, spans: seq<Span>, cost: CostEstimator, budget: int, drop: nat)
    requires spans != [] && SpansCover(ms, LeadingSystems(ms), |ms|, spans) && drop < |spans|
    requires AllTooDear(ms, cost, budget, drop) && cost(Cut(ms, drop)).Some?
    requires drop == |spans| - 1 || Within(cost, budget, Cut(ms, drop))
    ensures forall k: nat :: !FailsAt(ms, cost, budget, k)
  {
    forall k: nat ensures !FailsAt(ms, cost, budget, k) {
      if k > drop && drop == |spans| - 1 { NoBoundaryPastTheSpans(ms, LeadingSystems(ms), spans, k); }
    }
  }

  lemma {:induction false} CutOfSpan(ms: seq<Message>, spans: seq<Span>, k: nat)
    requires SpansCover(ms, LeadingSystems(ms), |ms|, spans) && k < |spans|
    ensures LeadingSystems(ms) <= spans[k].start == Boundary(ms, LeadingSystems(ms), k) < |ms|
    ensures Cut(ms, k) == Candidate(ms, LeadingSystems(ms), spans[k].start)
  {
    SpanStartsAreBoundaries(ms, LeadingSystems(ms), spans, k);
  }

  lemma {:induction false} CutAtBoundary(ms: seq<Message>, spans: seq<Span>, drop: nat, ok: seq<Message> -> bool)
    requires SpansCover(ms, LeadingSystems(ms), |ms|, spans) && drop < |spans|
    requires forall j: nat :: j < drop ==> !ok(Cut(ms, j))
    requires drop == |spans| - 1 || ok(Cut(ms, drop))
    ensures EarliestCut(ms, Cut(ms, drop), ok)
  {
    SpanStartsAreBoundaries(ms, LeadingSystems(ms), spans, drop);
    if drop == |spans| - 1 { NoBoundaryPastTheSpans(ms, LeadingSystems(ms), spans, drop + 1); }
    assert Cut(ms, drop) == Candidate(ms, LeadingSystems(ms), Boundary(ms, LeadingSystems(ms), drop));
    assert forall j: nat :: j < drop ==> !ok(Candidate(ms, LeadingSystems(ms), Boundary(ms, LeadingSystems(ms), j))) by {
      forall j: nat | j < drop ensures !ok(Candidate(ms, LeadingSystems(ms), Boundary(ms, LeadingSystems(ms), j))) {
        assert !ok(Cut(ms, j));
      }
    }
  }

  /** Drop oldest spans one by one, asking the estimator each time. */
  method DropByCost(ms: seq<Message>, spans: seq<Span>, budget: int, cost: CostEstimator) returns (out: Option<seq<Message>>)
    requires spans != [] && SpansCover(ms, LeadingSystems(ms), |ms|, spans) && cost(Cut(ms, 0)).Some?
    ensures out.Some? ==> EarliestCut(ms, out.value, c => Within(cost, budget, c))
    ensures out.None? <==> exists k: nat :: FailsAt(ms, cost, budget, k)
    ensures out.Some? ==> cost(out.value).Some?
  {
    hide SpansCover, EarliestCut, Cut, Candidate, LeadingSystems, Boundary;
    var lead := CountLeadingSystems(ms);
    var drop := 0;
    CutOfSpan(ms, spans, 0);
    var c := cost(Candidate(ms, lead, spans[0].start));
    while drop < |spans| - 1 && c.value > budget
      invariant drop < |spans| && c.Some? && c == cost(Cut(ms, drop)) && AllTooDear(ms, cost, budget, drop)
    {
      drop := drop + 1;
      CutOfSpan(ms, spans, drop);
      c := cost(Candidate(ms, lead, spans[drop].start));
      if c.None? {
        assert FailsAt(ms, cost, budget, drop);
        return None;
      }
    }
    CutAtBoundary(ms, spans, drop, x => Within(cost, budget, x));
    AnsweredThroughout(ms, spans, cost, budget, drop);
    CutOfSpan(ms, spans, drop);
    return Some(Candidate(ms, lead, spans[drop].start));
  }

  // ---------- the tool protocol survives ----------

  /** Every tool reply still follows the assistant message that asked for it. */
  ghost predicate NoOrphans(ms: seq<Message>) {
    forall i :: 0 <= i < |ms| && ms[i].role.Tool? ==> HasHead(ms, i)
  }

  ghost predicate HasHead(ms: seq<Message>, i: nat)
    requires i < |ms|
  {
    exists h :: 0 <= h < i && IsGroupHead(ms[h]) && forall j :: h < j <= i ==> ms[j].role.Tool?
  }

  /** No cut place falls on a tool reply. */
  lemma {:induction false} BoundariesAreNotReplies(ms: seq<Message>, from: nat, k: nat)
    requires NoOrphans(ms) && from <= |ms| && (from < |ms| ==> !ms[from].role.Tool?)
    ensures Boundary(ms, from, k) < |ms| ==> !ms[Boundary(ms, from, k)].role.Tool?
  {
    if k > 0 {
      BoundariesAreNotReplies(ms, from, k - 1);
      var b, c := Boundary(ms, from, k - 1), Boundary(ms, from, k);
      assert c < |ms| && ms[c].role.Tool? ==> HasHead(ms, c);
    }
  }

  /** A suffix that does not begin with a reply brings the heads of its replies along. */
  lemma {:induction false} SuffixBringsHeads(ms: seq<Message>, start: nat, out: seq<Message>, at: nat, i: nat)
    requires NoOrphans(ms) && start <= |ms| && (start < |ms| ==> !ms[start].role.Tool?)
    requires at <= i < |out| && out[at..] == ms[start..] && out[i].role.Tool?
    ensures HasHead(out, i)
  {
    assert forall j :: at <= j < |out| ==> out[j] == out[at..][j - at] == ms[start..][j - at] == ms[j - at + start];
    var p := i - at + start;
    assert HasHead(ms, p);
    var h :| 0 <= h < p && IsGroupHead(ms[h]) && forall j :: h < j <= p ==> ms[j].role.Tool?;
    assert out[h - start + at] == ms[h];
  }

  lemma {:induction false} CutKeepsProtocol(ms: seq<Message>, lead: nat, start: nat)
    requires NoOrphans(ms) && lead <= start <= |ms| && (start < |ms| ==> !ms[start].role.Tool?)
    requires forall i :: 0 <= i < lead ==> ms[i].role.System?
    ensures NoOrphans(Candidate(ms, lead, start))
  {
    var out := Candidate(ms, lead, start);
    assert out[lead..] == ms[start..];
    forall i | 0 <= i < |out| && out[i].role.Tool? ensures HasHead(out, i) {
      SuffixBringsHeads(ms, start, out, lead, i);
    }
  }

  lemma {:induction false} RepliesOnlyInTail(systems: seq<Message>, old_part: seq<Message>, tail: seq<Message>)
    requires forall m <- systems :: m.role.System?
    requires Plain(old_part)
    ensures forall i :: 0 <= i < |systems + old_part + tail| && (systems + old_part + tail)[i].role.Tool? ==> i >= |systems| + |old_part|
  {
  }

  lemma {:induction false} CompactionKeepsProtocol(render: Renderer, ms: seq<Message>, recent: int, limit: int)
    requires NoOrphans(ms)
    ensures NoOrphans(Compacted(render, ms, recent, limit))
  {
    if Applies(ms, recent) {
      CompactionShape(render, ms, recent, limit);
      var lead, start, out := LeadingSystems(ms), RecentStart(ms, recent), Compacted(render, ms, recent, limit);
      var old_part := Historical(render, ms, lead, start, limit);
      var boundary := lead + |old_part|;
      assert out[boundary..] == ms[start..];
      RepliesOnlyInTail(ms[..lead], old_part, ms[start..]);
      forall i | 0 <= i < |out| && out[i].role.Tool? ensures HasHead(out, i) {
        SuffixBringsHeads(ms, start, out, boundary, i);
      }
    }
  }

  /** Trimming a well-formed history at any cut place keeps it well-formed. */
  lemma {:induction false} EarliestCutKeepsProtocol(ms: seq<Message>, out: seq<Message>, ok: seq<Message> -> bool)
    requires NoOrphans(ms) && EarliestCut(ms, out, ok)
    ensures NoOrphans(out)
  {
    var lead := LeadingSystems(ms);
    var k: nat :| Boundary(ms, lead, k) < |ms| && out == Candidate(ms, lead, Boundary(ms, lead, k));
    assert ms[lead].role.Tool? ==> HasHead(ms, lead);
    BoundariesAreNotReplies(ms, lead, k);
    CutKeepsProtocol(ms, lead, Boundary(ms, lead, k));
  }
}
