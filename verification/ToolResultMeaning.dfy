/** What the byte budget leaves of tool results (internal/engine/turn/tool_result_budget.go), field by field. */
module ToolResultMeaning {
  import opened Truncate
  import opened ToolResultBudget

  // ---------- the texts involved ----------

  /** The marker, spelled out. */
  lemma {:induction false} MarkerIs()
    ensures |MARKER| == |"[tool output truncated by turn budget]"|
    ensures forall i :: 0 <= i < |MARKER| ==> MARKER[i] == "[tool output truncated by turn budget]"[i] as int
    ensures Ascii(MARKER)
  {
    var text := "[tool output truncated by turn budget]";
    forall i | 0 <= i < |text| ensures text[i] as int < 0x80 { TextIsAscii(text[i], i); }
  }

  lemma {:induction false} TextIsAscii(c: char, i: nat)
    requires i < |"[tool output truncated by turn budget]"| && c == "[tool output truncated by turn budget]"[i]
    ensures c as int < 0x80
  {
  }

  /** What a cut works on: the output, or without one both streams, a newline between them when both speak. */
  lemma {:induction false} SourceIs(r: Result)
    ensures r.output != [] ==> Source(r) == r.output
    ensures r.output == [] && r.stdout == [] ==> Source(r) == r.stderr
    ensures r.output == [] && r.stderr == [] ==> Source(r) == r.stdout
    ensures r.output == [] && r.stdout != [] && r.stderr != [] ==> Source(r) == r.stdout + [NEWLINE] + r.stderr
  {
    if r.output == [] && r.stderr != [] {
      assert [] + r.stderr == r.stderr;
      assert r.stdout + ([NEWLINE] + r.stderr) == r.stdout + [NEWLINE] + r.stderr;
    }
  }

  /** Every byte of text counts: own output, streams, structured output, and both kinds of evidence. */
  lemma {:induction false} SizeIs(r: Result)
    ensures r.failure == None || r.failure.value.evidence == None ==>
              TextBytes(r) == |r.output| + |r.stdout| + |r.stderr| + |r.structured|
    ensures r.failure.Some? && r.failure.value.evidence.Some? ==>
              TextBytes(r) == |r.output| + |r.stdout| + |r.stderr| + |r.structured|
                              + |r.failure.value.evidence.value.output| + |r.failure.value.evidence.value.structured|
  {
  }

  // ---------- one cut ----------

  predicate OnlyEvidence(r: Result) {
    && r.output == [] && r.stdout == [] && r.stderr == [] && r.structured == []
    && r.failure.Some? && r.failure.value.evidence.Some?
  }

  /** A cut of a result with own output: the streams are folded into the output, structured output stays
      whole or goes, text takes the room beside it and is cut with the marker when that is too little. A
      lost structured output is reported as a failure, unless the tool reported one. */
  lemma {:induction false} PayloadCut(r: Result, allowed: nat)
    requires !OnlyEvidence(r)
    ensures var cut := TruncatePayload(r, allowed);
            && cut.stdout == [] && cut.stderr == [] && cut.truncated
            && cut.stdoutTruncated == (r.stdoutTruncated || r.stdoutBytes > 0) && cut.stderrTruncated == (r.stderrTruncated || r.stderrBytes > 0)
            && cut.stdoutBytes == r.stdoutBytes && cut.stderrBytes == r.stderrBytes
            && (|r.structured| <= allowed ==> cut.structured == r.structured && cut.failure == r.failure)
            && (|r.structured| > allowed ==>
                  && cut.structured == [] && cut.output == WithMarker([], allowed, MARKER)
                  && cut.failure == if r.failure == None then Some(Failure(OutputTooLarge, TOO_LARGE, None)) else r.failure)
            && (0 < |r.structured| <= allowed ==>
                  cut.output == if |Source(r)| <= allowed - |r.structured| then Source(r) else WithMarker(Source(r), allowed - |r.structured|, MARKER))
            && (r.structured == [] ==> cut.output == WithMarker(Source(r), allowed, MARKER))
  {
  }

  /** A cut of a result that carries nothing but recovery evidence: the same rules on the evidence, whose
      digest no longer holds once it was cut. */
  lemma {:induction false} EvidenceCut(r: Result, allowed: nat)
    requires OnlyEvidence(r)
    ensures var cut, e := TruncatePayload(r, allowed), r.failure.value.evidence.value;
            && cut.failure.Some? && cut.failure.value.evidence.Some?
            && cut.failure.value.code == r.failure.value.code && cut.failure.value.message == r.failure.value.message
            && cut == r.(failure := cut.failure, truncated := cut.truncated)
            && var kept := cut.failure.value.evidence.value;
            && (|e.structured| > allowed ==> kept == Evidence(WithMarker([], allowed, MARKER), [], "", true) && cut.truncated)
            && (|e.structured| <= allowed && |e.output| > allowed - |e.structured| ==>
                  kept == Evidence(WithMarker(e.output, allowed - |e.structured|, MARKER), e.structured, "", true) && cut.truncated)
            && (|e.structured| + |e.output| <= allowed ==> cut == r)
  {
  }

  // ---------- the round ----------

  /** What a result may keep: as much as both limits that are set leave, never more than it has. */
  lemma {:induction false} AllowanceIs(size: nat, perRound: int, perTurn: int, roundUsed: nat, turnUsed: nat)
    ensures var a := Allowance(size, perRound, perTurn, roundUsed, turnUsed);
            && 0 <= a <= size
            && (perRound > 0 ==> a <= (if roundUsed < perRound then perRound - roundUsed else 0))
            && (perTurn > 0 ==> a <= (if turnUsed < perTurn then perTurn - turnUsed else 0))
            && (a < size ==> (perRound > 0 && a == (if roundUsed < perRound then perRound - roundUsed else 0))
                             || (perTurn > 0 && a == (if turnUsed < perTurn then perTurn - turnUsed else 0)))
  {
  }

  /** A result within its allowance is kept as it is, any other is cut to it; what is charged is what is
      kept, as far as the allowance goes. */
  lemma {:induction false} ChargeIs(r: Result, perRound: int, perTurn: int, roundUsed: nat, turnUsed: nat)
    ensures var a := Allowance(TextBytes(r), perRound, perTurn, roundUsed, turnUsed);
            var charged := Charged(r, perRound, perTurn, roundUsed, turnUsed);
            && (a == TextBytes(r) ==> charged.0 == r && charged.1 == TextBytes(r))
            && (a < TextBytes(r) ==>
                  && charged.0 == TruncatePayload(r, a)
                  && (charged.1 == TextBytes(charged.0) || charged.1 == a) && charged.1 <= a && charged.1 <= TextBytes(charged.0))
  {
    hide TruncatePayload;
  }

  /** In a round each result is cut under what the earlier ones left, and the totals add up. */
  lemma {:induction false} RoundIs(r: Result, rs: seq<Result>, perRound: int, perTurn: int, roundUsed: nat, turnUsed: nat)
    ensures Round([], perRound, perTurn, roundUsed, turnUsed) == ([], turnUsed)
    ensures var charged := Charged(r, perRound, perTurn, roundUsed, turnUsed);
            var rest := Round(rs, perRound, perTurn, roundUsed + charged.1, turnUsed + charged.1);
            Round([r] + rs, perRound, perTurn, roundUsed, turnUsed) == ([charged.0] + rest.0, rest.1)
  {
    hide Charged;
    assert ([r] + rs)[0] == r && ([r] + rs)[1..] == rs;
  }

  /** In a turn each round starts its own limit afresh and goes on with the turn's total. */
  lemma {:induction false} TurnIs(round: seq<Result>, rounds: seq<seq<Result>>, perRound: int, perTurn: int, turnUsed: nat)
    ensures Turn([], perRound, perTurn, turnUsed) == ([], turnUsed)
    ensures var first := Round(round, perRound, perTurn, 0, turnUsed);
            var rest := Turn(rounds, perRound, perTurn, first.1);
            Turn([round] + rounds, perRound, perTurn, turnUsed) == ([first.0] + rest.0, rest.1)
  {
    hide Round;
    assert ([round] + rounds)[0] == round && ([round] + rounds)[1..] == rounds;
  }
}
