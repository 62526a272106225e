/** What permission rules mean (internal/core/permission/permission.go), told by the fields of rules and
    requests. */
module PermissionMeaning {
  import Glob
  import opened Text
  import opened Permission

  // ---------- the verdict ----------

  predicate Applies(rules: seq<Rule>, action: Action, request: Request) {
    exists i :: 0 <= i < |rules| && rules[i].action == action && RuleMatches(rules[i], request)
  }

  /** A deny rule that applies decides; without one an ask rule does, then an allow rule; with none of
      them, computing and questions are allowed and the default speaks for everything else. */
  lemma {:induction false} VerdictMeans(rules: seq<Rule>, defaultAction: Action, request: Request)
    requires ValidAction(defaultAction)
    ensures var open := !Applies(rules, Deny, request) && !Applies(rules, Ask, request) && !Applies(rules, Allow, request);
            var harmless := request.kind == Compute || request.kind == Question;
            var verdict := Verdict(rules, defaultAction, request);
            && (verdict == Deny <==> Applies(rules, Deny, request) || (open && !harmless && defaultAction == Deny))
            && (verdict == Ask <==> (Applies(rules, Ask, request) && !Applies(rules, Deny, request)) || (open && !harmless && defaultAction == Ask))
            && (verdict == Allow <==>
                  || (Applies(rules, Allow, request) && !Applies(rules, Ask, request) && !Applies(rules, Deny, request))
                  || (open && (harmless || defaultAction == Allow)))
  {
    forall action: Action ensures Applies(rules, action, request) <==> Hit(rules, action, request) {
      if rule :| rule in rules && rule.action == action && RuleMatches(rule, request) {
        var i :| 0 <= i < |rules| && rules[i] == rule;
      }
    }
  }

  // ---------- what a rule looks at ----------

  predicate HasWildcard(s: string) {
    exists i :: 0 <= i < |s| && (s[i] == '*' || s[i] == '?')
  }

  lemma {:induction false} LiteralMatch(pattern: string, value: string)
    requires !HasWildcard(pattern)
    ensures Glob.MatchAnswer(pattern, value) <==> pattern == value
  {
    Glob.NoWildcardIsLiteral(pattern, value);
    if Glob.MatchAnswer(pattern, value) { Glob.MatchAnswerSound(pattern, value); }
  }

  /** A rule with a plain pattern applies to calls of its tool, or of any, whose detail is the pattern; a
      domain rule to those whose host is it in lower case; for MCP tools the tool's name will do too. */
  lemma {:induction false} PlainRuleMeans(rule: Rule, request: Request)
    requires rule.pattern != "" && !HasWildcard(rule.pattern)
    ensures RuleMatches(rule, request) <==>
            && (rule.tool == Any || rule.tool == request.kind)
            && (rule.mode == DomainPattern ==> request.host != "")
            && (|| (rule.mode == DomainPattern && Lower(request.host) == rule.pattern)
                || (rule.mode != DomainPattern && request.detail == rule.pattern)
                || (request.kind == Mcp && request.toolName == rule.pattern))
  {
    assert HasWildcard("*") by { assert "*"[0] == '*'; }
    LiteralMatch(rule.pattern, if rule.mode == DomainPattern then Lower(request.host) else request.detail);
    LiteralMatch(rule.pattern, request.toolName);
  }

  /** An empty pattern or a lone star covers every call of the tool; the rest is Glob's meaning of `*` and `?`. */
  lemma {:induction false} RuleMeans(rule: Rule, request: Request)
    requires '*' !in request.detail && '*' !in request.host && '*' !in request.toolName
    ensures RuleMatches(rule, request) <==>
            && (rule.tool == Any || rule.tool == request.kind)
            && (|| rule.pattern == "" || rule.pattern == "*"
                || (&& (rule.mode == DomainPattern ==> request.host != "")
                    && (|| Glob.Matches(rule.pattern, if rule.mode == DomainPattern then Lower(request.host) else request.detail)
                        || (request.kind == Mcp && Glob.Matches(rule.pattern, request.toolName)))))
  {
    LowerAddsNoStar(request.host);
    var target := if rule.mode == DomainPattern then Lower(request.host) else request.detail;
    RuleMatchesItsCoverage(rule, request);
    Glob.MatchAnswerSound(rule.pattern, target);
    Glob.MatchAnswerComplete(rule.pattern, target);
    Glob.MatchAnswerSound(rule.pattern, request.toolName);
    Glob.MatchAnswerComplete(rule.pattern, request.toolName);
  }

  lemma {:induction false} LowerAddsNoStar(s: string)
    requires '*' !in s
    ensures '*' !in Lower(s)
  {
    forall i | 0 <= i < |s| ensures Lower(s)[i] != '*' { assert s[i] in s; }
  }

  // ---------- how a configured rule is stored ----------

  /** A rule is accepted if it allows, denies or asks, and names neither an unknown tool nor an unknown
      pattern mode; leaving tool or mode out is no fault. */
  lemma {:induction false} AcceptedRules(rule: Rule)
    ensures ValidRule(rule) <==>
            && (rule.action == Allow || rule.action == Deny || rule.action == Ask)
            && (forall name: string :: rule.tool != OtherKind(name)) && (forall code: nat :: rule.mode != InvalidPattern(code))
  {
  }

  /** What a configured rule is stored as: tool and mode default to any tool and wildcard patterns, the
      pattern loses its outer space, `all` in any case becomes a star, a domain becomes lower case, and a
      dotted MCP name moves under `mcp.`. */
  lemma {:induction false} StoredAs(rule: Rule)
    ensures var stored, trimmed := Compile(rule), Trim(rule.pattern);
            && stored.action == rule.action
            && stored.tool == (if rule.tool == NoKind then Any else rule.tool)
            && stored.mode == (if rule.mode == UnknownPattern then GlobPattern else rule.mode)
            && (Lower(trimmed) == "all" ==> stored.pattern == "*")
            && (Lower(trimmed) != "all" && rule.mode == DomainPattern ==> stored.pattern == Lower(trimmed))
            && (Lower(trimmed) != "all" && rule.mode != DomainPattern && rule.tool == Mcp && '.' in trimmed ==>
                  stored.pattern == (if "mcp." <= trimmed then trimmed else "mcp." + trimmed))
            && (Lower(trimmed) != "all" && rule.mode != DomainPattern && (rule.tool != Mcp || '.' !in trimmed) ==> stored.pattern == trimmed)
  {
    assert Lower("all") == "all";
  }
}
