/** The per-round and per-turn byte budget of tool results (internal/engine/turn/tool_result_budget.go). */
module ToolResultBudget {
  import opened Truncate

  datatype Option<T> = None | Some(value: T)

  datatype Evidence = Evidence(output: Bytes, structured: Bytes, sha256: string, truncated: bool)
  datatype ErrorCode = OutputTooLarge | OtherCode(name: string)
  datatype Failure = Failure(code: ErrorCode, message: string, evidence: Option<Evidence>)
  datatype Result = Result(
    output: Bytes,
    stdout: Bytes,
    stderr: Bytes,
    structured: Bytes,
    failure: Option<Failure>,
    truncated: bool,
    stdoutBytes: int,
    stderrBytes: int,
    stdoutTruncated: bool,
    stderrTruncated: bool)

  function AsBytes(s: string): Bytes {
    seq(|s|, i requires 0 <= i < |s| => if s[i] as int < 0x80 then s[i] as int else 0x3F)
  }

  const MARKER: Bytes := AsBytes("[tool output truncated by turn budget]")
  const TOO_LARGE := "structured tool output exceeds the remaining turn result budget; request a smaller page or narrower result"

  // ---------- sizes ----------

  predicate HasEvidence(r: Result) {
    r.failure.Some? && r.failure.value.evidence.Some?
  }

  function PrimaryBytes(r: Result): nat {
    |r.output| + |r.stdout| + |r.stderr| + |r.structured|
  }

  function EvidenceBytes(r: Result): nat {
    if HasEvidence(r) then |r.failure.value.evidence.value.output| + |r.failure.value.evidence.value.structured| else 0
  }

  function TextBytes(r: Result): nat {
    PrimaryBytes(r) + EvidenceBytes(r)
  }

  /** The result carries both its own output and recovery evidence. */
  predicate Dual(r: Result) {
    PrimaryBytes(r) > 0 && EvidenceBytes(r) > 0
  }

  // ---------- truncating one result ----------

  function TruncateEvidence(r: Result, allowed: nat): Result
    requires HasEvidence(r)
  {
    var e := r.failure.value.evidence.value;
    if |e.structured| > allowed then
      WithEvidence(r, Evidence(WithMarker([], allowed, MARKER), [], "", true)).(truncated := true)
    else if |e.output| > allowed - |e.structured| then
      WithEvidence(r, Evidence(WithMarker(e.output, allowed - |e.structured|, MARKER), e.structured, "", true)).(truncated := true)
    else
      r
  }

  function WithEvidence(r: Result, e: Evidence): Result
    requires r.failure.Some?
  {
    r.(failure := Some(r.failure.value.(evidence := Some(e))))
  }

  /** The text a cut result is cut from: its output, or both streams joined. */
  function Source(r: Result): Bytes {
    if r.output != [] then r.output
    else r.stdout + (if r.stderr == [] then [] else (if r.stdout == [] then [] else [NEWLINE]) + r.stderr)
  }

  function TruncatePayload(r: Result, allowed: nat): Result {
    if HasEvidence(r) && PrimaryBytes(r) == 0 then TruncateEvidence(r, allowed)
    else
      var cut := r.(stdout := [], stderr := [], truncated := true,
                    stdoutTruncated := r.stdoutTruncated || r.stdoutBytes > 0,
                    stderrTruncated := r.stderrTruncated || r.stderrBytes > 0);
      if |r.structured| > allowed then
        cut.(structured := [], output := WithMarker([], allowed, MARKER),
             failure := if r.failure.None? then Some(Failure(OutputTooLarge, TOO_LARGE, None)) else r.failure)
      else if r.structured != [] && |Source(r)| <= allowed - |r.structured| then
        cut.(output := Source(r))
      else
        cut.(output := WithMarker(Source(r), allowed - |r.structured|, MARKER))
  }

  /** What a cut may leave behind: everything fits the allowance, except that evidence beside the
      result's own output is not looked at. A failure the tool reported is never lost. */
  lemma {:induction false} CutSize(r: Result, allowed: nat)
    requires allowed < TextBytes(r)
    ensures var cut := TruncatePayload(r, allowed);
            && (Dual(r) ==> PrimaryBytes(cut) <= allowed && EvidenceBytes(cut) == EvidenceBytes(r))
            && (!Dual(r) ==> TextBytes(cut) <= allowed)
            && cut.truncated
    ensures r.failure.Some? ==> TruncatePayload(r, allowed).failure.Some?
                                && TruncatePayload(r, allowed).failure.value.code == r.failure.value.code
  {
    WithMarkerFits([], allowed, MARKER);
    if |r.structured| <= allowed { WithMarkerFits(Source(r), allowed - |r.structured|, MARKER); }
    if HasEvidence(r) {
      var e := r.failure.value.evidence.value;
      if |e.structured| <= allowed { WithMarkerFits(e.output, allowed - |e.structured|, MARKER); }
    }
  }

  /** Every possible cut of a result fits its allowance exactly when the result does not carry both
      its own output and recovery evidence. */
  lemma {:induction false} CutFitsIffNotDual(r: Result)
    ensures (forall allowed: nat | allowed < TextBytes(r) :: TextBytes(TruncatePayload(r, allowed)) <= allowed) <==> !Dual(r)
  {
    forall allowed: nat | allowed < TextBytes(r)
      ensures !Dual(r) ==> TextBytes(TruncatePayload(r, allowed)) <= allowed
    {
      CutSize(r, allowed);
    }
    if Dual(r) {
      CutSize(r, 0);
      assert TextBytes(TruncatePayload(r, 0)) > 0;
    }
  }

  // ---------- one round ----------

  function Min(a: int, b: int): int { if a < b then a else b }

  /** Bytes left under a limit; a limit of zero or less means none. */
  function Room(limit: int, used: nat): int {
    if limit - used < 0 then 0 else limit - used
  }

  function Allowance(size: nat, perRound: int, perTurn: int, roundUsed: nat, turnUsed: nat): (allowed: nat)
    ensures allowed <= size
  {
    var byRound := if perRound > 0 then Min(size, Room(perRound, roundUsed)) else size;
    if perTurn > 0 then Min(byRound, Room(perTurn, turnUsed)) else byRound
  }

  function Charged(r: Result, perRound: int, perTurn: int, roundUsed: nat, turnUsed: nat): (out: (Result, nat))
    ensures out.1 <= TextBytes(out.0)
  {
    var allowed := Allowance(TextBytes(r), perRound, perTurn, roundUsed, turnUsed);
    var kept := if allowed < TextBytes(r) then TruncatePayload(r, allowed) else r;
    (kept, Min(TextBytes(kept), allowed))
  }

  /** Results and turn total after the rest of a round. */
  function Round(rs: seq<Result>, perRound: int, perTurn: int, roundUsed: nat, turnUsed: nat): (out: (seq<Result>, nat))
    ensures |out.0| == |rs|
    decreases |rs|
  {
    if rs == [] then ([], turnUsed)
    else
      var (r, charge) := Charged(rs[0], perRound, perTurn, roundUsed, turnUsed);
      var rest := Round(rs[1..], perRound, perTurn, roundUsed + charge, turnUsed + charge);
      ([r] + rest.0, rest.1)
  }

  function Retained(rs: seq<Result>): nat {
    if rs == [] then 0 else TextBytes(rs[0]) + Retained(rs[1..])
  }

  predicate NoDual(rs: seq<Result>) {
    forall r <- rs :: !Dual(r)
  }

  lemma {:induction false} ChargeIsExactUnlessDual(r: Result, perRound: int, perTurn: int, roundUsed: nat, turnUsed: nat)
    ensures var charged := Charged(r, perRound, perTurn, roundUsed, turnUsed);
            && (!Dual(r) ==> charged.1 == TextBytes(charged.0))
            && (perRound > 0 && roundUsed <= perRound ==> roundUsed + charged.1 <= perRound)
            && (perTurn > 0 && turnUsed <= perTurn ==> turnUsed + charged.1 <= perTurn)
  {
    var allowed := Allowance(TextBytes(r), perRound, perTurn, roundUsed, turnUsed);
    if allowed < TextBytes(r) { CutSize(r, allowed); }
  }

  lemma {:induction false} RetainedCons(r: Result, rest: seq<Result>)
    ensures Retained([r] + rest) == TextBytes(r) + Retained(rest)
  {
  }

  /** The turn total never passes the turn limit, and never counts more than is kept. */
  lemma {:induction false} TotalIsBounded(rs: seq<Result>, perRound: int, perTurn: int, roundUsed: nat, turnUsed: nat)
    ensures var out := Round(rs, perRound, perTurn, roundUsed, turnUsed);
            && turnUsed <= out.1 <= turnUsed + Retained(out.0)
            && (perTurn > 0 && turnUsed <= perTurn ==> out.1 <= perTurn)
    decreases |rs|
  {
    if rs == [] {
    } else {
      var charged := Charged(rs[0], perRound, perTurn, roundUsed, turnUsed);
      var r, charge := charged.0, charged.1;
      ChargeIsExactUnlessDual(rs[0], perRound, perTurn, roundUsed, turnUsed);
      TotalIsBounded(rs[1..], perRound, perTurn, roundUsed + charge, turnUsed + charge);
      RetainedCons(r, Round(rs[1..], perRound, perTurn, roundUsed + charge, turnUsed + charge).0);
    }
  }

  /** When no result carries both kinds of output the total grows by exactly the bytes kept, and
      those stay within the round limit. */
  lemma {:induction false} TotalIsExact(rs: seq<Result>, perRound: int, perTurn: int, roundUsed: nat, turnUsed: nat)
    requires NoDual(rs)
    ensures var out := Round(rs, perRound, perTurn, roundUsed, turnUsed);
            && out.1 == turnUsed + Retained(out.0)
            && (perRound > 0 && roundUsed <= perRound ==> roundUsed + Retained(out.0) <= perRound)
    decreases |rs|
  {
    if rs == [] {
    } else {
      var charged := Charged(rs[0], perRound, perTurn, roundUsed, turnUsed);
      var r, charge := charged.0, charged.1;
      ChargeIsExactUnlessDual(rs[0], perRound, perTurn, roundUsed, turnUsed);
      TotalIsExact(rs[1..], perRound, perTurn, roundUsed + charge, turnUsed + charge);
      RetainedCons(r, Round(rs[1..], perRound, perTurn, roundUsed + charge, turnUsed + charge).0);
    }
  }

  /** A dual result met with nothing left keeps bytes that are not charged. */
  lemma {:induction false} DualEscapesTheLedger(rs: seq<Result>)
    requires !NoDual(rs)
    ensures var (out, total) := Round(rs, 0, 1, 0, 1); total < 1 + Retained(out)
    decreases |rs|
  {
    var (r, charge) := Charged(rs[0], 0, 1, 0, 1);
    assert charge == 0;
    var rest := Round(rs[1..], 0, 1, 0, 1);
    assert ([r] + rest.0)[1..] == rest.0;
    TotalIsBounded(rs[1..], 0, 1, 0, 1);
    if Dual(rs[0]) {
      CutSize(rs[0], 0);
    } else {
      assert exists d <- rs[1..] :: Dual(d);
      DualEscapesTheLedger(rs[1..]);
    }
  }

  /** A dual result met with nothing left is kept down to its evidence, none of it charged. */
  lemma {:induction false} LoneDualIsUncharged(r: Result)
    requires Dual(r)
    ensures TextBytes(TruncatePayload(r, 0)) == EvidenceBytes(r)
    ensures Round([r], 0, 1, 0, 1) == ([TruncatePayload(r, 0)], 1)
    ensures Retained([TruncatePayload(r, 0)]) == EvidenceBytes(r)
  {
    hide TruncatePayload;
    CutSize(r, 0);
    var kept := TruncatePayload(r, 0);
    assert Charged(r, 0, 1, 0, 1) == (kept, 0);
    assert [r][1..] == [] && [kept][1..] == [] && [kept] + [] == [kept];
    assert Round([], 0, 1, 0, 1) == ([], 1) && Retained([]) == 0;
  }

  /** One byte of output beside two bytes of evidence, met with the turn's single byte already used: the
      cut keeps the evidence and the ledger does not see it. */
  lemma {:induction false} DualResultExample()
    ensures var evidence := Evidence([0x62, 0x63], [], "", false);
            var r := Result([0x61], [], [], [], Some(Failure(OtherCode("failed"), "", Some(evidence))), false, 0, 0, false, false);
            var out := Round([r], 0, 1, 0, 1);
            && Dual(r) && TextBytes(TruncatePayload(r, 0)) == 2
            && out.1 == 1 && Retained(out.0) == 2
  {
    hide Round, Retained, TruncatePayload;
    var evidence := Evidence([0x62, 0x63], [], "", false);
    LoneDualIsUncharged(Result([0x61], [], [], [], Some(Failure(OtherCode("failed"), "", Some(evidence))), false, 0, 0, false, false));
  }

  predicate LedgerExact(rs: seq<Result>, perRound: int, perTurn: int, turnUsed: nat) {
    var (out, total) := Round(rs, perRound, perTurn, 0, turnUsed);
    total == turnUsed + Retained(out)
  }

  /** The ledger counts the retained bytes under every limit exactly for rounds without a result
      that carries both its own output and recovery evidence. */
  lemma {:induction false} LedgerIsExactIffNoDual(rs: seq<Result>)
    ensures (forall perRound: int, perTurn: int, turnUsed: nat :: LedgerExact(rs, perRound, perTurn, turnUsed)) <==> NoDual(rs)
  {
    forall perRound: int, perTurn: int, turnUsed: nat | NoDual(rs)
      ensures LedgerExact(rs, perRound, perTurn, turnUsed)
    {
      TotalIsExact(rs, perRound, perTurn, 0, turnUsed);
    }
    if !NoDual(rs) {
      DualEscapesTheLedger(rs);
      assert !LedgerExact(rs, 0, 1, 1);
    }
  }

  /** A round that fits both limits is left untouched. */
  lemma {:induction false} FittingRoundIsUntouched(rs: seq<Result>, perRound: int, perTurn: int, roundUsed: nat, turnUsed: nat)
    requires perRound > 0 ==> roundUsed + Retained(rs) <= perRound
    requires perTurn > 0 ==> turnUsed + Retained(rs) <= perTurn
    ensures Round(rs, perRound, perTurn, roundUsed, turnUsed) == (rs, turnUsed + Retained(rs))
    decreases |rs|
  {
    if rs == [] {
    } else {
      var size := TextBytes(rs[0]);
      assert Charged(rs[0], perRound, perTurn, roundUsed, turnUsed) == (rs[0], size);
      FittingRoundIsUntouched(rs[1..], perRound, perTurn, roundUsed + size, turnUsed + size);
      assert [rs[0]] + rs[1..] == rs;
    }
  }

  // ---------- a whole turn ----------

  /** Retained results round by round, and the final turn total. */
  function Turn(rounds: seq<seq<Result>>, perRound: int, perTurn: int, turnUsed: nat): (out: (seq<seq<Result>>, nat))
    decreases |rounds|
  {
    if rounds == [] then ([], turnUsed)
    else
      var (first, total) := Round(rounds[0], perRound, perTurn, 0, turnUsed);
      var rest := Turn(rounds[1..], perRound, perTurn, total);
      ([first] + rest.0, rest.1)
  }

  function RetainedInAll(rounds: seq<seq<Result>>): nat {
    if rounds == [] then 0 else Retained(rounds[0]) + RetainedInAll(rounds[1..])
  }

  predicate NoDualInAll(rounds: seq<seq<Result>>) {
    forall rs <- rounds :: NoDual(rs)
  }

  predicate AllWithin(rounds: seq<seq<Result>>, limit: int) {
    forall rs <- rounds :: Retained(rs) <= limit
  }

  /** Over any number of rounds the turn total is what was retained, each round keeps within the
      round limit and all of them together within the turn limit. */
  lemma {:induction false} TurnKeepsItsBudget(rounds: seq<seq<Result>>, perRound: int, perTurn: int, turnUsed: nat)
    requires NoDualInAll(rounds)
    ensures var (out, total) := Turn(rounds, perRound, perTurn, turnUsed);
            && total == turnUsed + RetainedInAll(out)
            && (perRound > 0 ==> AllWithin(out, perRound))
            && (perTurn > 0 && turnUsed <= perTurn ==> turnUsed + RetainedInAll(out) <= perTurn)
    decreases |rounds|
  {
    if rounds == [] {
    } else {
      var (first, total) := Round(rounds[0], perRound, perTurn, 0, turnUsed);
      assert NoDual(rounds[0]);
      TotalIsBounded(rounds[0], perRound, perTurn, 0, turnUsed);
      TotalIsExact(rounds[0], perRound, perTurn, 0, turnUsed);
      TurnKeepsItsBudget(rounds[1..], perRound, perTurn, total);
      var rest := Turn(rounds[1..], perRound, perTurn, total).0;
      assert ([first] + rest)[1..] == rest;
    }
  }

  // ---------- the budget itself ----------

  /** Results already handled, then what the rest of the round makes of the others. */
  function After(done: seq<Result>, todo: seq<Result>, perRound: int, perTurn: int, roundUsed: nat, turnUsed: nat): (seq<Result>, nat) {
    var rest := Round(todo, perRound, perTurn, roundUsed, turnUsed);
    (done + rest.0, rest.1)
  }

  lemma {:induction false} RoundGoesOn(done: seq<Result>, was: seq<Result>, i: nat, perRound: int, perTurn: int, roundUsed: nat, turnUsed: nat)
    requires i < |was|
    ensures var (kept, charge) := Charged(was[i], perRound, perTurn, roundUsed, turnUsed);
            After(done, was[i..], perRound, perTurn, roundUsed, turnUsed)
              == After(done + [kept], was[i + 1..], perRound, perTurn, roundUsed + charge, turnUsed + charge)
  {
    assert was[i..][0] == was[i] && was[i..][1..] == was[i + 1..];
    var (kept, charge) := Charged(was[i], perRound, perTurn, roundUsed, turnUsed);
    var rest := Round(was[i + 1..], perRound, perTurn, roundUsed + charge, turnUsed + charge).0;
    assert done + ([kept] + rest) == (done + [kept]) + rest;
  }

  lemma {:induction false} RoundTotals(rs: seq<Result>, perRound: int, perTurn: int, turnUsed: nat)
    ensures var (out, total) := Round(rs, perRound, perTurn, 0, turnUsed);
            && (perTurn > 0 && turnUsed <= perTurn ==> total <= perTurn)
            && (NoDual(rs) ==> total == turnUsed + Retained(out))
            && (NoDual(rs) && perRound > 0 ==> Retained(out) <= perRound)
  {
    TotalIsBounded(rs, perRound, perTurn, 0, turnUsed);
    if NoDual(rs) { TotalIsExact(rs, perRound, perTurn, 0, turnUsed); }
  }

  class Budget {
    const perRound: int
    const perTurn: int
    var turnUsed: nat

    constructor (perRound: int, perTurn: int)
      ensures this.perRound == perRound && this.perTurn == perTurn && turnUsed == 0
    {
      this.perRound, this.perTurn, turnUsed := perRound, perTurn, 0;
    }

    /** Cut the round's results in place and charge what is kept. */
    method ApplyRound(executions: array<Result>)
      modifies this`turnUsed, executions
      ensures (executions[..], turnUsed) == Round(old(executions[..]), perRound, perTurn, 0, old(turnUsed))
      ensures perTurn > 0 && old(turnUsed) <= perTurn ==> turnUsed <= perTurn
      ensures NoDual(old(executions[..])) ==> turnUsed == old(turnUsed) + Retained(executions[..])
      ensures NoDual(old(executions[..])) && perRound > 0 ==> Retained(executions[..]) <= perRound
    {
      ghost var was := executions[..];
      ghost var before := turnUsed;
      var roundUsed: nat := 0;
      ghost var expected := Round(was, perRound, perTurn, 0, turnUsed);
      assert was[0..] == was && executions[..0] + expected.0 == expected.0;
      for i := 0 to executions.Length
        invariant executions[i..] == was[i..]
        invariant expected == After(executions[..i], was[i..], perRound, perTurn, roundUsed, turnUsed)
      {
        RoundGoesOn(executions[..i], was, i, perRound, perTurn, roundUsed, turnUsed);
        assert executions[i] == executions[i..][0] == was[i];
        assert executions[i + 1..] == executions[i..][1..] == was[i + 1..];
        var consumed := ApplyOne(executions, i, roundUsed);
        roundUsed := roundUsed + consumed;
        assert executions[..i + 1] == executions[..i] + [executions[i]];
      }
      assert was[executions.Length..] == [] && executions[..] == executions[..executions.Length];
      assert executions[..] + [] == executions[..];
      RoundTotals(was, perRound, perTurn, before);
    }

    /** One turn of the loop: cut the result if it does not fit, and charge it. */
    method ApplyOne(executions: array<Result>, i: nat, roundUsed: nat) returns (consumed: nat)
      requires i < executions.Length
      modifies this`turnUsed, executions
      ensures var (kept, charge) := Charged(old(executions[i]), perRound, perTurn, roundUsed, old(turnUsed));
              && consumed == charge && turnUsed == old(turnUsed) + charge && executions[i] == kept
      ensures executions[..i] == old(executions[..i]) && executions[i + 1..] == old(executions[i + 1..])
    {
      var size := TextBytes(executions[i]);
      if size == 0 { return 0; }
      var allowed := Allowance(size, perRound, perTurn, roundUsed, turnUsed);
      if allowed < size {
        executions[i] := TruncatePayload(executions[i], allowed);
      }
      consumed := Min(TextBytes(executions[i]), allowed);
      turnUsed := turnUsed + consumed;
    }
  }
}
