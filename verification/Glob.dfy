/** Wildcard matching (internal/base/glob): the greedy matcher that remembers one
    backtrack point, set against the declarative meaning of `*` and `?`.
    Text is a sequence of code points. */
module Glob {

  // ---------- what a pattern means ----------

  /** `*` stands for any run of characters, `?` for any one character, anything else for itself. */
  ghost predicate Matches(pattern: string, value: string)
    decreases |pattern| + |value|
  {
    if pattern == "" then value == ""
    else if pattern[0] == '*' then
      Matches(pattern[1..], value) || (value != "" && Matches(pattern, value[1..]))
    else
      value != "" && (pattern[0] == '?' || pattern[0] == value[0]) && Matches(pattern[1..], value[1..])
  }

  /** The unfolded reading of a leading star: some suffix of the value matches the rest. */
  lemma {:induction false} StarTakesAnyPrefix(rest: string, value: string)
    ensures Matches("*" + rest, value) <==> exists k: nat :: k <= |value| && Matches(rest, value[k..])
    decreases |value|
  {
    assert ("*" + rest)[1..] == rest;
    assert value[0..] == value;
    if value != "" {
      StarTakesAnyPrefix(rest, value[1..]);
      assert forall k: nat :: k <= |value[1..]| ==> value[1..][k..] == value[k + 1..];
      if k: nat :| k <= |value| && Matches(rest, value[k..]) && k > 0 {
        assert value[1..][k - 1..] == value[k..];
      }
    }
  }

  /** A star that matches a later suffix also matches every earlier one. */
  lemma {:induction false} StarReachesBack(pattern: string, value: string, from: nat, to: nat)
    requires pattern != "" && pattern[0] == '*'
    requires from <= to <= |value| && Matches(pattern, value[to..])
    ensures Matches(pattern, value[from..])
    decreases |value| - from
  {
    if from == to {
    } else {
      StarReachesBack(pattern, value, from + 1, to);
      assert value[from..][1..] == value[from + 1..];
    }
  }

  // ---------- the matcher ----------

  /** Where the scan stands. `star == -1` means no star has been passed. */
  ghost predicate ValidPosition(pattern: string, value: string, p: nat, v: nat, star: int, back: int) {
    && p <= |pattern| && v <= |value|
    && (star == -1 ==> back == -1)
    && (star != -1 ==> 0 <= star < p && pattern[star] == '*' && 0 <= back <= v)
  }

  predicate AllStars(s: string) {
    forall i :: 0 <= i < |s| ==> s[i] == '*'
  }

  /** The answer of the backtracking loop started from an arbitrary position. */
  predicate Scan(pattern: string, value: string, p: nat, v: nat, star: int, back: int)
    requires ValidPosition(pattern, value, p, v, star, back)
    decreases |value| - back, |pattern| - star, |value| - v
  {
    if v == |value| then AllStars(pattern[p..])
    else if p < |pattern| && (pattern[p] == '?' || pattern[p] == value[v]) then
      Scan(pattern, value, p + 1, v + 1, star, back)
    else if p < |pattern| && pattern[p] == '*' then
      Scan(pattern, value, p + 1, v, p, v)
    else if star != -1 then
      Scan(pattern, value, star + 1, back + 1, star, back + 1)
    else false
  }

  predicate HasWildcard(s: string) {
    exists i :: 0 <= i < |s| && (s[i] == '*' || s[i] == '?')
  }

  predicate HasSuffix(value: string, suffix: string) {
    |suffix| <= |value| && value[|value| - |suffix|..] == suffix
  }

  /** What Match answers, fast paths included. */
  predicate MatchAnswer(pattern: string, value: string) {
    if pattern == "*" then true
    else if pattern == value then true
    else if pattern == "" then value == ""
    else if pattern[0] == '*' && !HasWildcard(pattern[1..]) then HasSuffix(value, pattern[1..])
    else if pattern[|pattern| - 1] == '*' && !HasWildcard(pattern[..|pattern| - 1]) then
      pattern[..|pattern| - 1] <= value
    else if !HasWildcard(pattern) then pattern == value
    else Scan(pattern, value, 0, 0, -1, -1)
  }

  method ContainsWildcard(s: string) returns (found: bool)
    ensures found <==> HasWildcard(s)
  {
    for i := 0 to |s|
      invariant forall j :: 0 <= j < i ==> s[j] != '*' && s[j] != '?'
    {
      if s[i] == '*' || s[i] == '?' { return true; }
    }
    return false;
  }

  /** The two-index loop shared by the byte and the rune matcher. */
  method MatchElements(pattern: string, value: string) returns (matched: bool)
    ensures matched == Scan(pattern, value, 0, 0, -1, -1)
  {
    var pIdx, vIdx := 0, 0;
    var lastWildcardIdx, backtrackIdx := -1, -1;
    while vIdx < |value|
      invariant ValidPosition(pattern, value, pIdx, vIdx, lastWildcardIdx, backtrackIdx)
      invariant Scan(pattern, value, pIdx, vIdx, lastWildcardIdx, backtrackIdx) == Scan(pattern, value, 0, 0, -1, -1)
      decreases |value| - backtrackIdx, |pattern| - lastWildcardIdx, |value| - vIdx
    {
      if pIdx < |pattern| && (pattern[pIdx] == '?' || pattern[pIdx] == value[vIdx]) {
        pIdx, vIdx := pIdx + 1, vIdx + 1;
      } else if pIdx < |pattern| && pattern[pIdx] == '*' {
        lastWildcardIdx, backtrackIdx := pIdx, vIdx;
        pIdx := pIdx + 1;
      } else if lastWildcardIdx != -1 {
        pIdx := lastWildcardIdx + 1;
        backtrackIdx := backtrackIdx + 1;
        vIdx := backtrackIdx;
      } else {
        return false;
      }
    }
    ghost var p := pIdx;
    while pIdx < |pattern| && pattern[pIdx] == '*'
      invariant p <= pIdx <= |pattern|
      invariant forall i :: p <= i < pIdx ==> pattern[i] == '*'
    {
      pIdx := pIdx + 1;
    }
    assert pIdx < |pattern| ==> pattern[p..][pIdx - p] != '*';
    return pIdx == |pattern|;
  }

  method Match(pattern: string, value: string) returns (matched: bool)
    ensures matched == MatchAnswer(pattern, value)
    ensures matched ==> Matches(pattern, value)
    ensures '*' !in value ==> (matched <==> Matches(pattern, value))
  {
    MatchAnswerSound(pattern, value);
    if '*' !in value { MatchAnswerComplete(pattern, value); }
    if pattern == "*" || pattern == value { return true; }
    if pattern == "" { return value == ""; }
    var wild := ContainsWildcard(pattern[1..]);
    if pattern[0] == '*' && !wild { return HasSuffix(value, pattern[1..]); }
    wild := ContainsWildcard(pattern[..|pattern| - 1]);
    if pattern[|pattern| - 1] == '*' && !wild { return pattern[..|pattern| - 1] <= value; }
    wild := ContainsWildcard(pattern);
    if !wild { return pattern == value; }
    matched := MatchElements(pattern, value);
  }

  // ---------- literal segments ----------

  /** A star-free segment lines up with an equally long stretch of text. */
  ghost predicate SegmentFits(segment: string, text: string) {
    |segment| == |text| &&
    forall i :: 0 <= i < |segment| ==> segment[i] != '*' && (segment[i] == '?' || segment[i] == text[i])
  }

  lemma {:induction false} SegmentThenRest(segment: string, rest: string, value: string)
    requires '*' !in segment
    ensures Matches(segment + rest, value) <==>
            |segment| <= |value| && SegmentFits(segment, value[..|segment|]) && Matches(rest, value[|segment|..])
  {
    if segment == "" {
      assert segment + rest == rest && value[0..] == value;
    } else {
      assert (segment + rest)[1..] == segment[1..] + rest;
      assert segment[0] in segment;
      if value != "" {
        SegmentThenRest(segment[1..], rest, value[1..]);
        if |segment| <= |value| {
          assert value[1..][..|segment| - 1] == value[..|segment|][1..];
          assert value[1..][|segment| - 1..] == value[|segment|..];
          if SegmentFits(segment, value[..|segment|]) {
            assert SegmentFits(segment[1..], value[..|segment|][1..]);
          }
          if SegmentFits(segment[1..], value[..|segment|][1..]) && (segment[0] == '?' || segment[0] == value[0]) {
            forall i | 0 <= i < |segment|
              ensures segment[i] != '*' && (segment[i] == '?' || segment[i] == value[..|segment|][i])
            {
              if i > 0 { assert segment[1..][i - 1] == segment[i] && value[..|segment|][1..][i - 1] == value[i]; }
            }
          }
        }
      }
    }
  }

  lemma {:induction false} LiteralMatchesItself(value: string)
    ensures Matches(value, value)
  {
    if value == "" {
    } else {
      LiteralMatchesItself(value[1..]);
      if value[0] == '*' {
        StarReachesOneOff(value);
      }
    }
  }

  lemma {:induction false} StarReachesOneOff(value: string)
    requires value != "" && value[0] == '*' && Matches(value[1..], value[1..])
    ensures Matches(value, value)
  {
  }

  lemma {:induction false} EmptyValue(pattern: string)
    ensures Matches(pattern, "") <==> AllStars(pattern)
  {
    if pattern == "" {
    } else {
      EmptyValue(pattern[1..]);
      if pattern[0] == '*' && AllStars(pattern[1..]) {
        forall i | 0 <= i < |pattern| ensures pattern[i] == '*' {
          if i > 0 { assert pattern[1..][i - 1] == '*'; }
        }
      }
    }
  }

  // ---------- soundness ----------

  /** Every promise the scan may still redeem implies the whole match. */
  ghost predicate Promises(pattern: string, value: string, p: nat, v: nat, star: int, back: int)
    requires ValidPosition(pattern, value, p, v, star, back)
  {
    && (Matches(pattern[p..], value[v..]) ==> Matches(pattern, value))
    && (star != -1 ==> forall k: nat :: back <= k <= |value| && Matches(pattern[star + 1..], value[k..]) ==> Matches(pattern, value))
  }

  lemma {:induction false} ScanSound(pattern: string, value: string, p: nat, v: nat, star: int, back: int)
    requires ValidPosition(pattern, value, p, v, star, back)
    requires Promises(pattern, value, p, v, star, back)
    ensures Scan(pattern, value, p, v, star, back) ==> Matches(pattern, value)
    decreases |value| - back, |pattern| - star, |value| - v
  {
    if v == |value| {
      EmptyValue(pattern[p..]);
      assert value[v..] == "";
    } else if p < |pattern| && (pattern[p] == '?' || pattern[p] == value[v]) {
      assert pattern[p..][1..] == pattern[p + 1..] && value[v..][1..] == value[v + 1..];
      if Matches(pattern[p + 1..], value[v + 1..]) && pattern[p] == '*' {
        assert Matches(pattern[p..], value[v..][1..]);
      }
      ScanSound(pattern, value, p + 1, v + 1, star, back);
    } else if p < |pattern| && pattern[p] == '*' {
      assert pattern[p..][1..] == pattern[p + 1..];
      forall k: nat | v <= k <= |value| && Matches(pattern[p + 1..], value[k..]) ensures Matches(pattern, value) {
        assert Matches(pattern[p..], value[k..]);
        StarReachesBack(pattern[p..], value, v, k);
      }
      ScanSound(pattern, value, p + 1, v, p, v);
    } else if star != -1 {
      ScanSound(pattern, value, star + 1, back + 1, star, back + 1);
    }
  }

  // ---------- completeness for star-free values ----------

  /** While a match is still possible it is possible from the last star, and everything
      between that star and the scan position is a segment that lined up. */
  ghost predicate StillPossible(pattern: string, value: string, p: nat, v: nat, star: int, back: int)
    requires ValidPosition(pattern, value, p, v, star, back)
  {
    if star == -1 then Matches(pattern[p..], value[v..])
    else
      && Matches(pattern[star..], value[back..])
      && SegmentFits(pattern[star + 1..p], value[back..v])
  }

  lemma {:induction false} AfterStar(segment: string, rest: string, text: string) returns (d: nat)
    requires '*' !in segment && Matches("*" + (segment + rest), text)
    ensures d + |segment| <= |text|
    ensures Matches(segment + rest, text[d..]) && Matches(rest, text[d + |segment|..])
  {
    StarTakesAnyPrefix(segment + rest, text);
    d :| d <= |text| && Matches(segment + rest, text[d..]);
    SegmentThenRest(segment, rest, text[d..]);
    assert text[d..][|segment|..] == text[d + |segment|..];
  }

  /** The segment after the last star occurs at or after its first fit. */
  lemma {:induction false} LastStarChoices(pattern: string, value: string, p: nat, v: nat, star: int, back: int) returns (k: nat)
    requires ValidPosition(pattern, value, p, v, star, back) && star != -1
    requires StillPossible(pattern, value, p, v, star, back)
    ensures back <= k && k + (p - star - 1) <= |value|
    ensures Matches(pattern[star + 1..], value[k..])
    ensures Matches(pattern[p..], value[k + (p - star - 1)..])
  {
    var segment, rest, text := pattern[star + 1..p], pattern[p..], value[back..];
    assert pattern[star + 1..] == segment + rest;
    assert pattern[star..] == "*" + (segment + rest);
    var d := AfterStar(segment, rest, text);
    k := back + d;
    assert text[d..] == value[k..];
    assert text[d + |segment|..] == value[k + |segment|..];
  }

  /** The steps of the scan keep a match possible, one lemma a branch. */
  lemma {:induction false} PossibleAtEnd(pattern: string, value: string, p: nat, star: int, back: int)
    requires ValidPosition(pattern, value, p, |value|, star, back)
    requires StillPossible(pattern, value, p, |value|, star, back)
    ensures AllStars(pattern[p..])
  {
    if star != -1 {
      var k := LastStarChoices(pattern, value, p, |value|, star, back);
      assert Matches(pattern[p..], value[|value|..]);
    }
    EmptyValue(pattern[p..]);
    assert value[|value|..] == "";
  }

  lemma {:induction false} SegmentGrows(segment: string, text: string, c: char, d: char)
    requires SegmentFits(segment, text) && c != '*' && (c == '?' || c == d)
    ensures SegmentFits(segment + [c], text + [d])
  {
  }

  lemma {:induction false} SliceGrows(s: string, from: nat, to: nat)
    requires from <= to < |s|
    ensures s[from..to + 1] == s[from..to] + [s[to]]
  {
  }

  lemma {:induction false} SegmentGrowsBy(pattern: string, value: string, first: nat, p: nat, back: nat, v: nat)
    requires first <= p < |pattern| && back <= v < |value| && SegmentFits(pattern[first..p], value[back..v])
    requires pattern[p] != '*' && (pattern[p] == '?' || pattern[p] == value[v])
    ensures SegmentFits(pattern[first..p + 1], value[back..v + 1])
  {
    SliceGrows(pattern, first, p);
    SliceGrows(value, back, v);
    SegmentGrows(pattern[first..p], value[back..v], pattern[p], value[v]);
  }

  lemma {:induction false} MatchesTail(pattern: string, value: string)
    requires pattern != "" && value != "" && pattern[0] != '*' && Matches(pattern, value)
    ensures Matches(pattern[1..], value[1..])
  {
  }

  lemma {:induction false} PossibleAfterEqual(pattern: string, value: string, p: nat, v: nat, star: int, back: int)
    requires '*' !in value
    requires ValidPosition(pattern, value, p, v, star, back) && p < |pattern| && v < |value|
    requires StillPossible(pattern, value, p, v, star, back)
    requires pattern[p] == '?' || pattern[p] == value[v]
    ensures StillPossible(pattern, value, p + 1, v + 1, star, back)
  {
    assert value[v] in value;
    if star == -1 {
      MatchesTail(pattern[p..], value[v..]);
      assert pattern[p..][1..] == pattern[p + 1..] && value[v..][1..] == value[v + 1..];
    } else {
      SegmentGrowsBy(pattern, value, star + 1, p, back, v);
    }
  }

  lemma {:induction false} PossibleAfterStar(pattern: string, value: string, p: nat, v: nat, star: int, back: int)
    requires ValidPosition(pattern, value, p, v, star, back) && p < |pattern| && pattern[p] == '*'
    requires StillPossible(pattern, value, p, v, star, back)
    ensures StillPossible(pattern, value, p + 1, v, p, v)
  {
    if star != -1 {
      var k := LastStarChoices(pattern, value, p, v, star, back);
      StarReachesBack(pattern[p..], value, v, k + (p - star - 1));
    }
  }

  lemma {:induction false} FitIsNotHere(pattern: string, value: string, p: nat, v: nat)
    requires p <= |pattern| && v < |value|
    requires p < |pattern| ==> pattern[p] != '*' && pattern[p] != '?' && pattern[p] != value[v]
    ensures !Matches(pattern[p..], value[v..])
  {
  }

  lemma {:induction false} PossibleAfterBacktrack(pattern: string, value: string, p: nat, v: nat, star: int, back: int)
    requires ValidPosition(pattern, value, p, v, star, back) && star != -1 && v < |value|
    requires StillPossible(pattern, value, p, v, star, back)
    requires p < |pattern| ==> pattern[p] != '*' && pattern[p] != '?' && pattern[p] != value[v]
    ensures StillPossible(pattern, value, star + 1, back + 1, star, back + 1)
  {
    var k := LastStarChoices(pattern, value, p, v, star, back);
    FitIsNotHere(pattern, value, p, v);
    assert back + (p - star - 1) == v;
    assert Matches(pattern[star..], value[k..]) by {
      assert pattern[star..][1..] == pattern[star + 1..];
    }
    StarReachesBack(pattern[star..], value, back + 1, k);
  }

  lemma {:induction false} PossibleWithoutStar(pattern: string, value: string, p: nat, v: nat)
    requires p <= |pattern| && v < |value| && StillPossible(pattern, value, p, v, -1, -1)
    ensures p < |pattern| && (pattern[p] == '*' || pattern[p] == '?' || pattern[p] == value[v])
  {
    if p == |pattern| || (pattern[p] != '*' && pattern[p] != '?' && pattern[p] != value[v]) { FitIsNotHere(pattern, value, p, v); }
  }

  lemma {:induction false} ScanComplete(pattern: string, value: string, p: nat, v: nat, star: int, back: int)
    requires '*' !in value
    requires ValidPosition(pattern, value, p, v, star, back)
    requires StillPossible(pattern, value, p, v, star, back)
    ensures Scan(pattern, value, p, v, star, back)
    decreases |value| - back, |pattern| - star, |value| - v
  {
    hide StillPossible;
    if v == |value| {
      PossibleAtEnd(pattern, value, p, star, back);
    } else if p < |pattern| && (pattern[p] == '?' || pattern[p] == value[v]) {
      PossibleAfterEqual(pattern, value, p, v, star, back);
      ScanComplete(pattern, value, p + 1, v + 1, star, back);
    } else if p < |pattern| && pattern[p] == '*' {
      PossibleAfterStar(pattern, value, p, v, star, back);
      ScanComplete(pattern, value, p + 1, v, p, v);
    } else if star != -1 {
      PossibleAfterBacktrack(pattern, value, p, v, star, back);
      ScanComplete(pattern, value, star + 1, back + 1, star, back + 1);
    } else {
      PossibleWithoutStar(pattern, value, p, v);
    }
  }

  // ---------- the fast paths ----------

  lemma {:induction false} NoWildcardIsLiteral(pattern: string, value: string)
    requires !HasWildcard(pattern)
    ensures Matches(pattern, value) <==> pattern == value
  {
    assert pattern + "" == pattern;
    SegmentThenRest(pattern, "", value);
    if |pattern| == |value| { assert value[..|pattern|] == value; }
  }

  lemma {:induction false} StarSuffix(rest: string, value: string)
    requires !HasWildcard(rest)
    ensures Matches("*" + rest, value) <==> HasSuffix(value, rest)
  {
    StarTakesAnyPrefix(rest, value);
    if HasSuffix(value, rest) {
      NoWildcardIsLiteral(rest, value[|value| - |rest|..]);
    }
    if k: nat :| k <= |value| && Matches(rest, value[k..]) {
      NoWildcardIsLiteral(rest, value[k..]);
    }
  }

  lemma {:induction false} LoneStar(value: string)
    ensures Matches("*", value)
  {
    if value == "" {
    } else {
      LoneStar(value[1..]);
    }
  }

  lemma {:induction false} PrefixStar(prefix: string, value: string)
    requires !HasWildcard(prefix)
    ensures Matches(prefix + "*", value) <==> prefix <= value
  {
    SegmentThenRest(prefix, "*", value);
    if |prefix| <= |value| { LoneStar(value[|prefix|..]); }
  }

  // ---------- the theorems ----------

  /** A positive answer is always right, for every pattern and value. */
  lemma {:induction false} MatchAnswerSound(pattern: string, value: string)
    ensures MatchAnswer(pattern, value) ==> Matches(pattern, value)
  {
    if pattern == "*" { LoneStar(value); }
    else if pattern == value { LiteralMatchesItself(value); }
    else if pattern == "" {}
    else if pattern[0] == '*' && !HasWildcard(pattern[1..]) {
      assert pattern == "*" + pattern[1..];
      StarSuffix(pattern[1..], value);
    } else if pattern[|pattern| - 1] == '*' && !HasWildcard(pattern[..|pattern| - 1]) {
      assert pattern == pattern[..|pattern| - 1] + "*";
      PrefixStar(pattern[..|pattern| - 1], value);
    } else if HasWildcard(pattern) {
      assert pattern[0..] == pattern && value[0..] == value;
      ScanSound(pattern, value, 0, 0, -1, -1);
    }
  }

  /** No match is missed when the value holds no `*`. */
  lemma {:induction false} MatchAnswerComplete(pattern: string, value: string)
    requires '*' !in value
    ensures Matches(pattern, value) ==> MatchAnswer(pattern, value)
  {
    if pattern == "*" || pattern == value || pattern == "" || !Matches(pattern, value) {}
    else if pattern[0] == '*' && !HasWildcard(pattern[1..]) {
      assert pattern == "*" + pattern[1..];
      StarSuffix(pattern[1..], value);
    } else if pattern[|pattern| - 1] == '*' && !HasWildcard(pattern[..|pattern| - 1]) {
      assert pattern == pattern[..|pattern| - 1] + "*";
      PrefixStar(pattern[..|pattern| - 1], value);
    } else if !HasWildcard(pattern) {
      NoWildcardIsLiteral(pattern, value);
    } else {
      assert pattern[0..] == pattern && value[0..] == value;
      ScanComplete(pattern, value, 0, 0, -1, -1);
    }
  }

  /** `a*b` against `a*xb`: the literal test eats the star, so a true match is missed. */
  lemma {:induction false} StarInValueMisses()
    ensures Matches("a*b", "a*xb") && !MatchAnswer("a*b", "a*xb")
  {
  }

  function Questions(n: nat): (s: string)
    ensures |s| == n && forall i :: 0 <= i < n ==> s[i] == '?'
  {
    seq(n, _ => '?')
  }

  /** The scan walks literally through the part of the value it was copied from and
      through the `?` run, without ever recording a star. */
  lemma {:induction false} WalksLiterally(value: string, star: nat, v: nat)
    requires star < |value| && v <= |value|
    ensures var pattern := value[..star + 1] + Questions(|value| - star);
            !Scan(pattern, value, v, v, -1, -1)
    decreases |value| - v
  {
    var pattern := value[..star + 1] + Questions(|value| - star);
    if v < |value| {
      WalksLiterally(value, star, v + 1);
    } else {
      assert pattern[v..][|pattern[v..]| - 1] == '?';
    }
  }

  lemma {:induction false} QuestionsMatch(value: string)
    ensures Matches(Questions(|value|), value)
  {
    if value == "" {
    } else {
      QuestionsMatch(value[1..]);
      assert Questions(|value|)[1..] == Questions(|value| - 1);
    }
  }

  lemma {:induction false} CommonPrefix(prefix: string, pattern: string, value: string)
    requires Matches(pattern, value)
    ensures Matches(prefix + pattern, prefix + value)
  {
    if prefix == "" {
      assert prefix + pattern == pattern && prefix + value == value;
    } else {
      CommonPrefix(prefix[1..], pattern, value);
      assert (prefix + pattern)[1..] == prefix[1..] + pattern;
      assert (prefix + value)[1..] == prefix[1..] + value;
      if prefix[0] == '*' {
        assert Matches(prefix + pattern, (prefix + value)[1..]);
      }
    }
  }

  /** A value that holds a `*` is missed by some pattern that does match it. */
  lemma {:induction false} StarInValueIsMissedBySomePattern(value: string, star: nat) returns (pattern: string)
    requires star < |value| && value[star] == '*'
    ensures Matches(pattern, value) && !MatchAnswer(pattern, value)
  {
    var tail := value[star..];
    pattern := value[..star + 1] + Questions(|tail|);
    assert Matches("*" + Questions(|tail|), tail) by {
      QuestionsMatch(tail);
      assert tail[0..] == tail;
      StarTakesAnyPrefix(Questions(|tail|), tail);
    }
    CommonPrefix(value[..star], "*" + Questions(|tail|), tail);
    assert pattern == value[..star] + ("*" + Questions(|tail|));
    assert value == value[..star] + tail;
    WalksLiterally(value, star, 0);
    assert pattern[|pattern| - 1] == '?';
    assert |pattern| >= 2;
    assert pattern[1..][|pattern| - 2] == '?';
  }

  /** Match decides the declarative semantics on a value for all patterns exactly when
      the value holds no `*`. */
  lemma {:induction false} ExactForStarFreeValues(value: string)
    ensures (forall pattern: string :: MatchAnswer(pattern, value) <==> Matches(pattern, value)) <==> '*' !in value
  {
    if '*' in value {
      var star: nat :| star < |value| && value[star] == '*';
      var pattern := StarInValueIsMissedBySomePattern(value, star);
    } else {
      forall pattern: string ensures MatchAnswer(pattern, value) <==> Matches(pattern, value) {
        MatchAnswerSound(pattern, value);
        MatchAnswerComplete(pattern, value);
      }
    }
  }
}
