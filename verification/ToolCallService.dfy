/** Authorisation of tool calls and session grants over whole runs (internal/engine/toolcall). */
module ToolCallService {
  import opened Permission

  datatype Mode = UnknownMode | AskMode | AutoMode | AlwaysApprove | DenyMode
  datatype GrantScope = UnknownScope | Once | Session

  /** What the interactive resolver does: fail, or answer with any action and scope. */
  datatype Answer = Failed | Answered(action: Action, scope: GrantScope)

  /** The branch a resolution came from; the source keeps it as the reason text. */
  datatype Basis =
    | StaticDeny | StaticAllow | InDenyMode | Orchestration | TaskMetadata | BySessionGrant | InAlwaysApprove
    | NoPrompt | PromptFailed | PromptInvalid | PromptDecision | InvalidMode | Guarded
  datatype Resolution = Resolution(action: Action, scope: GrantScope, basis: Basis)

  /** Arguments stand in for their SHA-256 digest. */
  datatype Key = Key(toolName: string, kind: Kind, detail: string, arguments: string, effect: Effect, risk: Risk, scope: Scope)

  function KeyOf(r: Request): Key {
    Key(r.toolName, r.kind, r.detail, r.arguments, r.effect, r.risk, r.scope)
  }

  predicate SessionGrantEligible(r: Request) {
    r.effect == ReadOnly && r.risk == Normal
  }

  /** A patch that only flips task statuses. */
  predicate StatusOnly(operations: seq<PatchOp>) {
    operations != [] && forall op <- operations :: op == SetStatus
  }

  predicate TaskMetadataAutoAllowed(r: Request) {
    && r.kind == Task && r.task.Some? && r.toolName == "todo"
    && (r.task.value.action == "get" || (r.task.value.action == "update" && StatusOnly(r.task.value.operations)))
  }

  predicate Interactive(mode: Mode) {
    mode == AskMode || mode == AutoMode
  }

  // ---------- what may run ----------

  predicate Approves(prompt: Option<Answer>) {
    prompt.Some? && prompt.value.Answered? && prompt.value.action == Allow
  }

  /** A call may run when policy allows it, or policy leaves it open, deny mode is off and one of the
      listed grounds holds. */
  ghost predicate Permitted(verdict: Action, mode: Mode, granted: bool, request: Request, prompt: Option<Answer>) {
    || verdict == Allow
    || (&& verdict != Deny && mode != DenyMode
        && (|| mode == AlwaysApprove
            || (granted && SessionGrantEligible(request))
            || (Interactive(mode) && (request.kind == Agent || TaskMetadataAutoAllowed(request) || Approves(prompt)))))
  }

  /** The user was asked: nothing before the prompt settled the call. */
  ghost predicate Prompted(verdict: Action, mode: Mode, granted: bool, request: Request, prompt: Option<Answer>) {
    && verdict != Deny && verdict != Allow && Interactive(mode) && prompt.Some?
    && request.kind != Agent && !TaskMetadataAutoAllowed(request) && !(granted && SessionGrantEligible(request))
  }

  /** The user was asked and approved an eligible request for the session. */
  ghost predicate SessionApproved(verdict: Action, mode: Mode, granted: bool, request: Request, prompt: Option<Answer>) {
    Prompted(verdict, mode, granted, request, prompt) && prompt == Some(Answered(Allow, Session)) && SessionGrantEligible(request)
  }

  /** A stored grant settles the call: policy and deny mode leave it open and no automatic ground of an
      interactive mode comes first. */
  ghost predicate SettledByGrant(verdict: Action, mode: Mode, granted: bool, request: Request) {
    && verdict != Deny && verdict != Allow && mode != DenyMode && granted && SessionGrantEligible(request)
    && !(Interactive(mode) && (request.kind == Agent || TaskMetadataAutoAllowed(request)))
  }

  // ---------- histories ----------

  /** One settled call. `denied` says a deny rule matched when it was made. */
  datatype Entry = Entry(request: Request, resolution: Resolution, denied: bool)

  predicate GivesGrant(e: Entry) {
    e.resolution == Resolution(Allow, Session, PromptDecision) && SessionGrantEligible(e.request)
  }

  ghost predicate GrantedBy(log: seq<Entry>, n: nat, key: Key) {
    exists i: nat :: i < n && i < |log| && GivesGrant(log[i]) && KeyOf(log[i].request) == key
  }

  /** Denied calls are denied, and a call let through by a grant follows a session approval of the
      same key. */
  ghost predicate Justified(log: seq<Entry>) {
    forall i: nat :: i < |log| ==>
      && (log[i].denied ==> log[i].resolution.action == Deny)
      && (log[i].resolution.basis == BySessionGrant ==> SessionGrantEligible(log[i].request) && GrantedBy(log, i, KeyOf(log[i].request)))
      && (log[i].resolution.scope == Session ==> GivesGrant(log[i]))
  }

  /** The same tool asked to do the same thing. */
  predicate SameCall(a: Request, b: Request) {
    && a.toolName == b.toolName && a.kind == b.kind && a.detail == b.detail && a.arguments == b.arguments
    && a.effect == b.effect && a.risk == b.risk && a.scope == b.scope
  }

  /** The user approved this very call for the session earlier on. */
  ghost predicate ApprovedBefore(log: seq<Entry>, request: Request) {
    exists i :: 0 <= i < |log| && SameCall(log[i].request, request)
                && log[i].resolution == Resolution(Allow, Session, PromptDecision)
                && log[i].request.effect == ReadOnly && log[i].request.risk == Normal
  }

  /** A key stands for one call: requests that differ in any of these fields have different keys. */
  lemma {:induction false} KeyIsTheCall(a: Request, b: Request)
    ensures KeyOf(a) == KeyOf(b) <==> SameCall(a, b)
  {
  }

  lemma {:induction false} GrantedIffApproved(log: seq<Entry>, n: nat, request: Request)
    requires n <= |log|
    ensures GrantedBy(log, n, KeyOf(request)) <==> ApprovedBefore(log[..n], request)
  {
    if i: nat :| i < n && GivesGrant(log[i]) && KeyOf(log[i].request) == KeyOf(request) {
      KeyIsTheCall(log[i].request, request);
      assert log[..n][i] == log[i];
    }
    if i :| 0 <= i < n && SameCall(log[..n][i].request, request) && GivesGrant(log[..n][i]) {
      KeyIsTheCall(log[i].request, request);
      assert log[..n][i] == log[i];
    }
  }

  /** A stored grant covers exactly the calls the user approved for the session. */
  lemma {:induction false} GrantCoversApprovedCalls(log: seq<Entry>, grants: set<Key>, request: Request)
    requires GrantsMatch(log, grants)
    ensures KeyOf(request) in grants <==> ApprovedBefore(log, request)
  {
    GrantedIffApproved(log, |log|, request);
    assert log[..|log|] == log;
  }

  /** A call let through by a grant repeats one the user approved for the session before. */
  lemma {:induction false} GrantedCallWasApproved(log: seq<Entry>, i: nat)
    requires Justified(log) && i < |log| && log[i].resolution.basis == BySessionGrant
    ensures ApprovedBefore(log[..i], log[i].request) && log[i].request.effect == ReadOnly && log[i].request.risk == Normal
  {
    GrantedIffApproved(log, i, log[i].request);
  }

  /** The grants are exactly the keys approved for the session. */
  ghost predicate GrantsMatch(log: seq<Entry>, grants: set<Key>) {
    forall key :: key in grants <==> GrantedBy(log, |log|, key)
  }

  lemma {:induction false} LogGrows(log: seq<Entry>, e: Entry)
    ensures forall n: nat, key | n <= |log| :: GrantedBy(log + [e], n, key) <==> GrantedBy(log, n, key)
    ensures forall key :: GrantedBy(log + [e], |log| + 1, key) <==> GrantedBy(log, |log|, key) || (GivesGrant(e) && key == KeyOf(e.request))
  {
    var longer := log + [e];
    forall n: nat, key | n <= |log| ensures GrantedBy(longer, n, key) <==> GrantedBy(log, n, key) {
      if i: nat :| i < n && i < |longer| && GivesGrant(longer[i]) && KeyOf(longer[i].request) == key { assert log[i] == longer[i]; }
      if i: nat :| i < n && i < |log| && GivesGrant(log[i]) && KeyOf(log[i].request) == key { assert log[i] == longer[i]; }
    }
    forall key ensures GrantedBy(longer, |log| + 1, key) <==> GrantedBy(log, |log|, key) || (GivesGrant(e) && key == KeyOf(e.request)) {
      assert longer[|log|] == e;
      if i: nat :| i < |log| + 1 && i < |longer| && GivesGrant(longer[i]) && KeyOf(longer[i].request) == key && i != |log| {
        assert log[i] == longer[i];
      }
      if i: nat :| i < |log| && GivesGrant(log[i]) && KeyOf(log[i].request) == key { assert log[i] == longer[i]; }
    }
  }

  /** One more settled call keeps the history justified and its grants in step. */
  lemma {:induction false} HistoryGrows(log: seq<Entry>, grants: set<Key>, e: Entry)
    requires Justified(log) && GrantsMatch(log, grants)
    requires e.denied ==> e.resolution.action == Deny
    requires e.resolution.basis == BySessionGrant ==> SessionGrantEligible(e.request) && KeyOf(e.request) in grants
    requires e.resolution.scope == Session ==> GivesGrant(e)
    ensures Justified(log + [e])
    ensures GrantsMatch(log + [e], if GivesGrant(e) then grants + {KeyOf(e.request)} else grants)
  {
    LogGrows(log, e);
    var longer := log + [e];
    forall i: nat | i < |longer|
      ensures && (longer[i].denied ==> longer[i].resolution.action == Deny)
              && (longer[i].resolution.basis == BySessionGrant ==> SessionGrantEligible(longer[i].request) && GrantedBy(longer, i, KeyOf(longer[i].request)))
              && (longer[i].resolution.scope == Session ==> GivesGrant(longer[i]))
    {
      if i < |log| { assert longer[i] == log[i]; } else { assert longer[i] == e; }
    }
  }

  /** Every stored grant is for a read-only request of normal risk. */
  lemma {:induction false} GrantsAreHarmless(log: seq<Entry>, grants: set<Key>)
    requires GrantsMatch(log, grants)
    ensures forall key <- grants :: key.effect == ReadOnly && key.risk == Normal
  {
  }

  /** A grant settles later calls with the same key like a standing approval, and changes nothing
      for any call that policy or deny mode refuses. */
  lemma {:induction false} GrantActsOnlyWhereTheUserDecides(verdict: Action, mode: Mode, request: Request, prompt: Option<Answer>)
    ensures Permitted(verdict, mode, true, request, prompt) && !Permitted(verdict, mode, false, request, prompt) ==>
              SessionGrantEligible(request) && verdict != Deny && mode != DenyMode && mode != AlwaysApprove
    ensures SessionGrantEligible(request) && Interactive(mode) ==>
              (Permitted(verdict, mode, true, request, None) <==> Permitted(verdict, mode, false, request, Some(Answered(Allow, Once))))
  {
  }

  /** Without an approval, ever, what runs in a mode that asks the user: policy allowed it, it is an
      orchestration call, or it is a todo call that reads tasks or only sets statuses. */
  lemma {:induction false} UnattendedCallsAreListed(verdict: Action, mode: Mode, request: Request)
    requires mode == AskMode || mode == AutoMode
    ensures Permitted(verdict, mode, false, request, None) <==>
              || verdict == Allow
              || (verdict != Deny
                  && (|| request.kind == Agent
                      || (&& request.kind == Task && request.toolName == "todo" && request.task.Some?
                          && (|| request.task.value.action == "get"
                              || (&& request.task.value.action == "update" && |request.task.value.operations| > 0
                                  && forall i :: 0 <= i < |request.task.value.operations| ==> request.task.value.operations[i] == SetStatus)))))
  {
    if request.task.Some? {
      var ops := request.task.value.operations;
      forall i | 0 <= i < |ops| ensures ops[i] in ops {}
    }
  }

  /** Outside those modes nobody is asked: deny mode runs what policy allows, always-approve everything
      policy does not deny, and an unknown mode what policy or a grant allows. */
  lemma {:induction false} OtherModesNeverAsk(verdict: Action, mode: Mode, granted: bool, request: Request, prompt: Option<Answer>)
    requires mode != AskMode && mode != AutoMode
    ensures mode == DenyMode ==> (Permitted(verdict, mode, granted, request, prompt) <==> verdict == Allow)
    ensures mode == AlwaysApprove ==> (Permitted(verdict, mode, granted, request, prompt) <==> verdict != Deny)
    ensures mode == UnknownMode ==>
              (Permitted(verdict, mode, granted, request, prompt) <==>
               verdict == Allow || (verdict != Deny && granted && request.effect == ReadOnly && request.risk == Normal))
    ensures !Prompted(verdict, mode, granted, request, prompt)
  {
  }

  // ---------- the service ----------

  class Service {
    const policy: Policy
    var mode: Mode
    var grants: set<Key>
    ghost var log: seq<Entry>

    ghost predicate Valid()
      reads this, policy
    {
      policy.Valid() && Justified(log) && GrantsMatch(log, grants)
    }

    constructor (policy: Policy)
      requires policy.Valid()
      ensures Valid() && this.policy == policy && mode == AskMode && grants == {} && log == []
    {
      this.policy, mode, grants, log := policy, AskMode, {}, [];
    }

    /** A copy shares the policy and starts without grants. */
    method Clone() returns (s: Service)
      requires Valid()
      ensures fresh(s) && s.Valid() && s.policy == policy && s.mode == mode && s.grants == {}
    {
      s := new Service(policy);
      s.mode := mode;
    }

    method SetMode(mode: Mode) returns (ok: bool)
      requires Valid()
      modifies this`mode
      ensures Valid() && ok == (mode != UnknownMode) && this.mode == if ok then mode else old(this.mode)
    {
      ok := mode != UnknownMode;
      if ok { this.mode := mode; }
    }

    /** Rules may be added mid-session; from then on every call a new deny rule matches is refused. */
    method AddRule(rule: Rule) returns (ok: bool)
      requires Valid()
      modifies policy`rules
      ensures Valid() && ok == ValidRule(rule)
      ensures old(policy.rules) <= policy.rules
      ensures ok && rule.action == Deny ==>
                forall request :: RuleMatches(Canonical(rule), request) ==> Hit(policy.rules, Deny, request)
      ensures forall request :: old(Hit(policy.rules, Deny, request)) ==> Hit(policy.rules, Deny, request)
    {
      ghost var before := policy.rules;
      ok := policy.AddRule(rule);
      assert ok ==> Canonical(rule) in policy.rules;
      forall r | r in before ensures r in policy.rules {}
    }

    /** The decision, branch by branch. */
    method Authorize(request: Request, prompt: Option<Answer>) returns (r: Resolution, failed: bool)
      requires Valid()
      ensures var verdict := Verdict(policy.rules, policy.defaultAction, request);
              var granted := ApprovedBefore(log, request);
              && (r.action == Allow <==> Permitted(verdict, mode, granted, request, prompt))
              && (r.action == Allow || r.action == Deny)
              && (r.scope == Session <==> SessionApproved(verdict, mode, granted, request, prompt))
              && (r.basis == BySessionGrant <==> SettledByGrant(verdict, mode, granted, request))
              && (r.scope == Session ==> r == Resolution(Allow, Session, PromptDecision) && SessionGrantEligible(request))
              && (failed <==> Prompted(verdict, mode, granted, request, prompt) && prompt == Some(Failed))
              && (failed ==> r.action == Deny)
              && (Hit(policy.rules, Deny, request) ==> r.action == Deny)
    {
      GrantCoversApprovedCalls(log, grants, request);
      failed := false;
      var verdict := policy.Evaluate(request);
      if verdict == Deny { return Resolution(Deny, GrantScope.UnknownScope, StaticDeny), false; }
      if verdict == Allow { return Resolution(Allow, GrantScope.UnknownScope, StaticAllow), false; }
      if mode == DenyMode { return Resolution(Deny, GrantScope.UnknownScope, InDenyMode), false; }
      if request.kind == Agent && Interactive(mode) { return Resolution(Allow, GrantScope.UnknownScope, Orchestration), false; }
      if TaskMetadataAutoAllowed(request) && Interactive(mode) { return Resolution(Allow, GrantScope.UnknownScope, TaskMetadata), false; }
      if KeyOf(request) in grants && request.effect == ReadOnly && request.risk == Normal {
        return Resolution(Allow, GrantScope.UnknownScope, BySessionGrant), false;
      }
      if mode == AlwaysApprove { return Resolution(Allow, GrantScope.UnknownScope, InAlwaysApprove), false; }
      if !Interactive(mode) { return Resolution(Deny, GrantScope.UnknownScope, InvalidMode), false; }
      if prompt.None? { return Resolution(Deny, GrantScope.UnknownScope, NoPrompt), false; }
      if prompt.value.Failed? { return Resolution(Deny, GrantScope.UnknownScope, PromptFailed), true; }
      var answer := prompt.value;
      if answer.action != Allow && answer.action != Deny { return Resolution(Deny, GrantScope.UnknownScope, PromptInvalid), false; }
      var scope := answer.scope;
      if answer.action == Deny { scope := Once; }
      if scope != Once && scope != Session { scope := Once; }
      if scope == Session && !SessionGrantEligible(request) { scope := Once; }
      return Resolution(answer.action, scope, PromptDecision), false;
    }

    method RememberGrant(key: Key)
      modifies this`grants
      ensures grants == old(grants) + {key}
    {
      grants := grants + {key};
    }

    /** Guard, decide, remember. The handler runs only when `allowed`. */
    method Call(request: Request, guardRefuses: bool, prompt: Option<Answer>) returns (allowed: bool)
      requires Valid()
      modifies this`grants, this`log
      ensures Valid()
      ensures var verdict := Verdict(policy.rules, policy.defaultAction, request);
              var granted := ApprovedBefore(old(log), request);
              && (allowed <==> !guardRefuses && Permitted(verdict, mode, granted, request, prompt))
              && grants == old(grants) + (if !guardRefuses && SessionApproved(verdict, mode, granted, request, prompt) then {KeyOf(request)} else {})
      ensures Hit(policy.rules, Deny, request) ==> !allowed && grants == old(grants)
      ensures |log| == |old(log)| + 1 && old(log) <= log
      ensures var verdict := Verdict(policy.rules, policy.defaultAction, request);
              var granted := ApprovedBefore(old(log), request);
              var entry := log[|log| - 1];
              && entry.request == request
              && entry.denied == Hit(policy.rules, Deny, request)
              && (entry.resolution.action == Allow <==> allowed) && (entry.resolution.action == Deny <==> !allowed)
              && (entry.resolution.basis == BySessionGrant <==> !guardRefuses && SettledByGrant(verdict, mode, granted, request))
              && (GivesGrant(entry) <==> !guardRefuses && SessionApproved(verdict, mode, granted, request, prompt))
    {
      var resolution, failed;
      if guardRefuses {
        resolution, failed := Resolution(Deny, GrantScope.UnknownScope, Guarded), false;
      } else {
        resolution, failed := Authorize(request, prompt);
      }
      ghost var entry := Entry(request, resolution, Hit(policy.rules, Deny, request));
      GrantCoversApprovedCalls(log, grants, request);
      HistoryGrows(log, grants, entry);
      log := log + [entry];
      allowed := !failed && resolution.action == Allow;
      if allowed && resolution.scope == Session && SessionGrantEligible(request) {
        RememberGrant(KeyOf(request));
      }
    }
  }
}
