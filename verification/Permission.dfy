/** Static permission policy (internal/core/permission/permission.go). */
module Permission {
  import Glob
  import opened Text

  datatype Action = UnknownAction | Allow | Deny | Ask | InvalidAction(code: nat)
  datatype Kind =
    | NoKind | Any | Read | Edit | Bash | Grep | Git | Mcp | Web | Task | Agent | Compute | Question
    | OtherKind(name: string)
  datatype PatternMode = UnknownPattern | GlobPattern | DomainPattern | InvalidPattern(code: nat)
  datatype Rule = Rule(action: Action, tool: Kind, pattern: string, mode: PatternMode)

  datatype Effect = ReadOnly | Mutating | UnknownEffect
  datatype Risk = Normal | Destructive | RemoteDestructive
  datatype Scope = Local | Remote | Publish | Deployment | UnknownScope

  datatype PatchOp = Add | SetStatus | SetText | Remove | OtherOp(name: string)
  datatype TaskInput = TaskInput(action: string, operations: seq<PatchOp>)
  datatype Option<T> = None | Some(value: T)

  /** `host` is the hostname a URL parser finds in `detail` (empty when there is none), and `task`
      the task fields of `arguments` (None when they do not parse). */
  datatype Request = Request(
    toolName: string,
    kind: Kind,
    detail: string,
    arguments: string,
    effect: Effect,
    risk: Risk,
    scope: Scope,
    host: string,
    task: Option<TaskInput>)

  predicate ValidAction(a: Action) { a.Allow? || a.Deny? || a.Ask? }
  predicate ValidKind(k: Kind) { !k.NoKind? && !k.OtherKind? }
  predicate ValidMode(m: PatternMode) { m.GlobPattern? || m.DomainPattern? }

  // ---------- patterns ----------

  predicate NamesAll(pattern: string) {
    EqualFold(pattern, "all")
  }

  /** Dotted MCP patterns are tool names and live under `mcp.`. */
  function Namespaced(pattern: string): string {
    if '.' in pattern && !HasPrefix(pattern, "mcp.") then "mcp." + pattern else pattern
  }

  /** The pattern a configured rule is stored with. */
  function CompilePattern(tool: Kind, mode: PatternMode, pattern: string): string {
    var trimmed := Trim(pattern);
    if NamesAll(trimmed) then "*"
    else if mode.DomainPattern? then Lower(trimmed)
    else if tool.Mcp? then Namespaced(trimmed)
    else trimmed
  }

  /** The canonical pattern, used for rules added later. */
  function NormalizePattern(tool: Kind, mode: PatternMode, pattern: string): string {
    var trimmed := Trim(pattern);
    if mode.DomainPattern? then
      if trimmed == "" || trimmed == "*" || NamesAll(trimmed) then "*" else Lower(trimmed)
    else if tool.Mcp? && NamesAll(trimmed) then "*"
    else
      var named := if tool.Mcp? then Namespaced(trimmed) else trimmed;
      if named == "" || named == "*" || NamesAll(named) then "*" else named
  }

  lemma {:induction false} LowerKeepsTrimmed(s: string)
    ensures Trim(Lower(Trim(s))) == Lower(Trim(s))
    ensures Lower(Lower(s)) == Lower(s)
  {
  }

  lemma {:induction false} NamespacedStaysTrimmed(s: string)
    ensures var named := Namespaced(Trim(s));
            && Trim(named) == named
            && Namespaced(named) == named
            && (NamesAll(named) ==> named == Trim(s))
  {
  }

  lemma {:induction false} FixedPatterns()
    ensures Trim("*") == "*" && Trim("") == "" && Lower("*") == "*" && Lower("") == ""
    ensures !NamesAll("*") && !NamesAll("") && Namespaced("*") == "*"
  {
  }

  lemma {:induction false} CanonicalDomain(tool: Kind, mode: PatternMode, pattern: string)
    requires mode.DomainPattern?
    ensures PatternsAgree(tool, mode, pattern)
  {
    FixedPatterns();
    LowerKeepsTrimmed(pattern);
    TrimIsIdempotent(pattern);
    LowerOfStars(Trim(pattern));
  }

  lemma {:induction false} LowerOfStars(s: string)
    ensures Lower(s) == "" <==> s == ""
    ensures Lower(s) == "*" <==> s == "*"
    ensures NamesAll(Lower(s)) == NamesAll(s)
  {
  }

  lemma {:induction false} CanonicalPlain(tool: Kind, mode: PatternMode, pattern: string)
    requires !mode.DomainPattern? && !tool.Mcp?
    ensures PatternsAgree(tool, mode, pattern)
  {
    FixedPatterns();
    TrimIsIdempotent(pattern);
    PlainAgrees(tool, mode, pattern, Trim(pattern));
  }

  lemma {:induction false} PlainAgrees(tool: Kind, mode: PatternMode, pattern: string, trimmed: string)
    requires !mode.DomainPattern? && !tool.Mcp? && trimmed == Trim(pattern) == Trim(trimmed)
    requires Trim("*") == "*" && !NamesAll("*") && !NamesAll("")
    ensures PatternsAgree(tool, mode, pattern)
  {
    var all := NamesAll(trimmed);
    var stored := if all then "*" else trimmed;
    var canonical := if trimmed == "" || trimmed == "*" || all then "*" else trimmed;
    assert CompilePattern(tool, mode, pattern) == stored;
    assert NormalizePattern(tool, mode, pattern) == canonical;
    assert NormalizePattern(tool, mode, stored) == canonical;
    assert NormalizePattern(tool, mode, canonical) == canonical;
  }

  lemma {:induction false} CanonicalMcp(tool: Kind, mode: PatternMode, pattern: string)
    requires !mode.DomainPattern? && tool.Mcp?
    ensures PatternsAgree(tool, mode, pattern)
  {
    FixedPatterns();
    NamespacedStaysTrimmed(pattern);
  }

  /** Configured and later-added rules agree on the canonical pattern; a stored pattern differs from
      it only by being empty instead of `*`; and the canonical pattern is a fixed point. */
  ghost predicate PatternsAgree(tool: Kind, mode: PatternMode, pattern: string) {
    var stored, canonical := CompilePattern(tool, mode, pattern), NormalizePattern(tool, mode, pattern);
    && canonical == (if stored == "" then "*" else stored)
    && NormalizePattern(tool, mode, stored) == canonical
    && NormalizePattern(tool, mode, canonical) == canonical
  }

  lemma {:induction false} CanonicalPattern(tool: Kind, mode: PatternMode, pattern: string)
    ensures PatternsAgree(tool, mode, pattern)
  {
    if mode.DomainPattern? { CanonicalDomain(tool, mode, pattern); }
    else if tool.Mcp? { CanonicalMcp(tool, mode, pattern); }
    else { CanonicalPlain(tool, mode, pattern); }
  }

  // ---------- matching ----------

  predicate RuleMatches(rule: Rule, request: Request) {
    && (rule.tool == Any || rule.tool == request.kind)
    && (|| rule.pattern == "" || rule.pattern == "*"
        || (!(rule.mode.DomainPattern? && request.host == "")
            && (|| Glob.MatchAnswer(rule.pattern, Target(rule, request))
                || (request.kind == Mcp && Glob.MatchAnswer(rule.pattern, request.toolName)))))
  }

  function Target(rule: Rule, request: Request): string {
    if rule.mode.DomainPattern? then Lower(request.host) else request.detail
  }

  /** What a rule covers, in terms of the declarative wildcard semantics. */
  ghost predicate Covers(rule: Rule, request: Request) {
    && (rule.tool == Any || rule.tool == request.kind)
    && (rule.pattern == "" || rule.pattern == "*"
        || (!(rule.mode.DomainPattern? && request.host == "")
            && (Glob.Matches(rule.pattern, Target(rule, request))
                || (request.kind == Mcp && Glob.Matches(rule.pattern, request.toolName)))))
  }

  /** A rule never applies outside its declared coverage, and applies to all of it when the request
      texts hold no `*`. */
  lemma {:induction false} RuleMatchesItsCoverage(rule: Rule, request: Request)
    ensures RuleMatches(rule, request) ==> Covers(rule, request)
    ensures '*' !in Target(rule, request) && '*' !in request.toolName && Covers(rule, request) ==> RuleMatches(rule, request)
  {
    Glob.MatchAnswerSound(rule.pattern, Target(rule, request));
    Glob.MatchAnswerSound(rule.pattern, request.toolName);
    if '*' !in Target(rule, request) && '*' !in request.toolName {
      Glob.MatchAnswerComplete(rule.pattern, Target(rule, request));
      Glob.MatchAnswerComplete(rule.pattern, request.toolName);
    }
  }

  // ---------- rules ----------

  function WithDefaults(rule: Rule): Rule {
    rule.(tool := if rule.tool.NoKind? then Any else rule.tool,
          mode := if rule.mode.UnknownPattern? then GlobPattern else rule.mode)
  }

  predicate ValidRule(rule: Rule) {
    ValidAction(rule.action) && ValidKind(WithDefaults(rule).tool) && ValidMode(WithDefaults(rule).mode)
  }

  function Compile(rule: Rule): Rule {
    var r := WithDefaults(rule);
    r.(pattern := CompilePattern(r.tool, r.mode, r.pattern))
  }

  function Canonical(rule: Rule): Rule {
    var r := WithDefaults(rule);
    r.(pattern := NormalizePattern(r.tool, r.mode, r.pattern))
  }

  /** Re-normalising a stored rule never changes what it matches. */
  lemma {:induction false} CanonicalMatchesAlike(rule: Rule)
    ensures forall request :: RuleMatches(Canonical(rule), request) == RuleMatches(Compile(rule), request)
    ensures Canonical(Compile(rule)) == Canonical(rule) == Canonical(Canonical(rule))
  {
    var r := WithDefaults(rule);
    CanonicalPattern(r.tool, r.mode, r.pattern);
  }

  predicate Stored(rule: Rule) {
    ValidRule(rule) && WithDefaults(rule) == rule && (Canonical(rule) == rule || (rule.pattern == "" && Canonical(rule).pattern == "*"))
  }

  lemma {:induction false} CompiledIsStored(rule: Rule)
    requires ValidRule(rule)
    ensures Stored(Compile(rule)) && Stored(Canonical(rule))
  {
    var r := WithDefaults(rule);
    CanonicalPattern(r.tool, r.mode, r.pattern);
  }

  // ---------- the verdict ----------

  predicate Hit(rules: seq<Rule>, action: Action, request: Request) {
    exists rule <- rules :: rule.action == action && RuleMatches(rule, request)
  }

  function Verdict(rules: seq<Rule>, defaultAction: Action, request: Request): (a: Action)
    ensures a == Deny ==> Hit(rules, Deny, request) || defaultAction == Deny
    ensures Hit(rules, Deny, request) ==> a == Deny
  {
    if Hit(rules, Deny, request) then Deny
    else if Hit(rules, Ask, request) then Ask
    else if Hit(rules, Allow, request) then Allow
    else if request.kind == Compute || request.kind == Question then Allow
    else defaultAction
  }

  predicate Represented(rule: Rule, rules: seq<Rule>) {
    exists other <- rules :: Canonical(other) == Canonical(rule)
  }

  /** The same rules up to order, repetition and spelling. */
  predicate SameRules(a: seq<Rule>, b: seq<Rule>) {
    (forall rule <- a :: Represented(rule, b)) && (forall rule <- b :: Represented(rule, a))
  }

  predicate AllStored(rules: seq<Rule>) {
    forall rule <- rules :: Stored(rule)
  }

  lemma {:induction false} HitSurvives(a: seq<Rule>, b: seq<Rule>, action: Action, request: Request)
    requires AllStored(a) && AllStored(b) && SameRules(a, b)
    requires Hit(a, action, request)
    ensures Hit(b, action, request)
  {
  }

  /** Order, repetition and re-normalisation (`""` against `*`) of the rules never matter. */
  lemma {:induction false} VerdictIgnoresOrderAndSpelling(a: seq<Rule>, b: seq<Rule>, defaultAction: Action, request: Request)
    requires AllStored(a) && AllStored(b) && SameRules(a, b)
    ensures Verdict(a, defaultAction, request) == Verdict(b, defaultAction, request)
  {
    forall action ensures Hit(a, action, request) == Hit(b, action, request) {
      if Hit(a, action, request) { HitSurvives(a, b, action, request); }
      if Hit(b, action, request) { HitSurvives(b, a, action, request); }
    }
  }

  function Strictness(a: Action): int {
    match a case Deny => 3 case Ask => 2 case Allow => 1 case _ => 0
  }

  predicate Touched(rules: seq<Rule>, request: Request) {
    Hit(rules, Deny, request) || Hit(rules, Ask, request) || Hit(rules, Allow, request)
  }

  /** Joining two rule lists: with matches on both sides the stricter verdict wins, with a match on
      one side that side decides alone, and the defaults speak only when neither matches. */
  lemma {:induction false} StricterRuleWins(a: seq<Rule>, b: seq<Rule>, defaultAction: Action, request: Request)
    ensures var va, vb, both := Verdict(a, defaultAction, request), Verdict(b, defaultAction, request), Verdict(a + b, defaultAction, request);
            && (Touched(a, request) && Touched(b, request) ==> both == if Strictness(va) >= Strictness(vb) then va else vb)
            && (!Touched(a, request) ==> both == vb)
            && (!Touched(b, request) ==> both == va)
  {
  }

  // ---------- the policy object ----------

  class Policy {
    var rules: seq<Rule>
    const defaultAction: Action

    ghost predicate Valid()
      reads this
    {
      AllStored(rules) && ValidAction(defaultAction)
    }

    constructor (rules: seq<Rule>, defaultAction: Action)
      requires AllStored(rules) && ValidAction(defaultAction)
      ensures Valid() && this.rules == rules && this.defaultAction == defaultAction
    {
      this.rules, this.defaultAction := rules, defaultAction;
    }

    /** Deny beats ask beats allow, wherever the rules stand. */
    method Evaluate(request: Request) returns (action: Action)
      requires Valid()
      ensures action == Verdict(rules, defaultAction, request)
    {
      var matchedAsk, matchedAllow := false, false;
      for i := 0 to |rules|
        invariant !Hit(rules[..i], Deny, request)
        invariant matchedAsk == Hit(rules[..i], Ask, request)
        invariant matchedAllow == Hit(rules[..i], Allow, request)
      {
        HitExtends(rules, i, request);
        if RuleMatches(rules[i], request) {
          match rules[i].action
          case Deny => return Deny;
          case Ask => matchedAsk := true;
          case Allow => matchedAllow := true;
          case _ =>
        }
      }
      assert rules[..|rules|] == rules;
      if matchedAsk { return Ask; }
      if matchedAllow { return Allow; }
      if request.kind == Compute || request.kind == Question { return Allow; }
      return defaultAction;
    }

    /** Refused for an invalid rule, a no-op for one already present, otherwise appended. Either way
        the policy then answers as if the rule had been configured from the start. */
    method AddRule(rule: Rule) returns (ok: bool)
      requires Valid()
      modifies this`rules
      ensures Valid()
      ensures ok <==> ValidRule(rule)
      ensures !ok ==> rules == old(rules)
      ensures ok ==> rules == old(rules) + (if Canonical(rule) in old(rules) then [] else [Canonical(rule)])
      ensures ok ==> forall request :: Verdict(rules, defaultAction, request) == Verdict(old(rules) + [Compile(rule)], defaultAction, request)
    {
      ok := ValidRule(rule);
      if !ok { return; }
      var added := Canonical(rule);
      CompiledIsStored(rule);
      forall request { AddedAnswersAsConfigured(rules, rule, defaultAction, request); }
      for i := 0 to |rules|
        invariant added !in rules[..i]
      {
        if rules[i] == added { return; }
      }
      assert rules[..|rules|] == rules;
      rules := rules + [added];
    }
  }

  lemma {:induction false} HitExtends(rules: seq<Rule>, i: nat, request: Request)
    requires i < |rules|
    ensures forall action :: Hit(rules[..i + 1], action, request) <==>
              Hit(rules[..i], action, request) || (rules[i].action == action && RuleMatches(rules[i], request))
    ensures Hit(rules[..i + 1], Deny, request) ==> Hit(rules, Deny, request)
  {
    var shorter, longer := rules[..i], rules[..i + 1];
    assert longer == shorter + [rules[i]];
    assert rules[i] in longer;
    forall action ensures Hit(longer, action, request) <==> Hit(shorter, action, request) || (rules[i].action == action && RuleMatches(rules[i], request)) {
      if rule :| rule in longer && rule.action == action && RuleMatches(rule, request) {
        assert rule in shorter || rule == rules[i];
      }
      if rule :| rule in shorter && rule.action == action && RuleMatches(rule, request) {
        assert rule in longer;
      }
    }
    forall rule | rule in longer ensures rule in rules {}
  }

  lemma {:induction false} HitAppend(rules: seq<Rule>, rule: Rule, action: Action, request: Request)
    ensures Hit(rules + [rule], action, request) <==> Hit(rules, action, request) || (rule.action == action && RuleMatches(rule, request))
  {
  }

  lemma {:induction false} AddedAnswersAsConfigured(rules: seq<Rule>, rule: Rule, defaultAction: Action, request: Request)
    ensures var configured := Verdict(rules + [Compile(rule)], defaultAction, request);
            && Verdict(rules + [Canonical(rule)], defaultAction, request) == configured
            && (Canonical(rule) in rules ==> Verdict(rules, defaultAction, request) == configured)
  {
    CanonicalMatchesAlike(rule);
    forall action
      ensures Hit(rules + [Canonical(rule)], action, request) == Hit(rules + [Compile(rule)], action, request)
      ensures Canonical(rule) in rules ==> Hit(rules, action, request) == Hit(rules + [Compile(rule)], action, request)
    {
      HitAppend(rules, Canonical(rule), action, request);
      HitAppend(rules, Compile(rule), action, request);
    }
  }

  /** A configuration is refused for a bad default or rule; otherwise every rule is stored. */
  method NewPolicy(rules: seq<Rule>, defaultAction: Action) returns (policy: Policy?)
    ensures policy == null <==> (defaultAction != UnknownAction && !ValidAction(defaultAction)) || exists rule <- rules :: !ValidRule(rule)
    ensures policy != null ==>
              && fresh(policy) && policy.Valid()
              && policy.defaultAction == (if defaultAction == UnknownAction then Ask else defaultAction)
              && policy.rules == seq(|rules|, i requires 0 <= i < |rules| => Compile(rules[i]))
  {
    var effective := if defaultAction == UnknownAction then Ask else defaultAction;
    if !ValidAction(effective) { return null; }
    var stored: seq<Rule> := [];
    for i := 0 to |rules|
      invariant |stored| == i && forall j :: 0 <= j < i ==> stored[j] == Compile(rules[j]) && ValidRule(rules[j])
      invariant AllStored(stored)
    {
      if !ValidRule(rules[i]) { return null; }
      CompiledIsStored(rules[i]);
      stored := stored + [Compile(rules[i])];
    }
    assert stored == seq(|rules|, i requires 0 <= i < |rules| => Compile(rules[i]));
    forall rule | rule in rules ensures ValidRule(rule) {}
    policy := new Policy(stored, effective);
  }
}
