/** ASCII text helpers the source takes from the Go strings package. */
module Text {

  predicate IsSpace(c: char) {
    c == ' ' || c == '\t' || c == '\n' || c == '\r' || c == 11 as char || c == 12 as char
  }

  function TrimLeft(s: string): (r: string)
    ensures r == "" || !IsSpace(r[0])
    ensures |r| <= |s|
  {
    if s != "" && IsSpace(s[0]) then TrimLeft(s[1..]) else s
  }

  function TrimRight(s: string): (r: string)
    ensures r == "" || !IsSpace(r[|r| - 1])
    ensures r <= s
  {
    if s != "" && IsSpace(s[|s| - 1]) then TrimRight(s[..|s| - 1]) else s
  }

  /** strings.TrimSpace */
  function Trim(s: string): (r: string)
    ensures |r| <= |s|
    ensures r != "" ==> !IsSpace(r[0]) && !IsSpace(r[|r| - 1])
  {
    TrimRight(TrimLeft(s))
  }

  lemma {:induction false} TrimIsIdempotent(s: string)
    ensures Trim(Trim(s)) == Trim(s)
  {
  }

  function LowerChar(c: char): char {
    if 'A' <= c <= 'Z' then (c as int - 'A' as int + 'a' as int) as char else c
  }

  /** strings.ToLower on ASCII */
  function Lower(s: string): (r: string)
    ensures |r| == |s| && forall i :: 0 <= i < |s| ==> r[i] == LowerChar(s[i])
  {
    seq(|s|, i requires 0 <= i < |s| => LowerChar(s[i]))
  }

  /** strings.EqualFold on ASCII */
  predicate EqualFold(a: string, b: string) {
    Lower(a) == Lower(b)
  }

  predicate HasPrefix(s: string, prefix: string) {
    prefix <= s
  }

  // ---------- what the helpers mean ----------

  predicate OnlySpaces(s: string) {
    forall c <- s :: c == ' ' || '\t' <= c <= '\r'
  }

  lemma {:induction false} TrimLeftSplits(s: string) returns (before: string)
    ensures s == before + TrimLeft(s) && OnlySpaces(before)
  {
    if s != "" && IsSpace(s[0]) {
      var rest := TrimLeftSplits(s[1..]);
      before := [s[0]] + rest;
      assert s == [s[0]] + s[1..];
    } else {
      before := "";
      assert s == "" + s;
    }
  }

  lemma {:induction false} TrimRightSplits(s: string) returns (after: string)
    ensures s == TrimRight(s) + after && OnlySpaces(after)
  {
    if s != "" && IsSpace(s[|s| - 1]) {
      var rest := TrimRightSplits(s[..|s| - 1]);
      after := rest + [s[|s| - 1]];
      assert s == s[..|s| - 1] + [s[|s| - 1]];
    } else {
      after := "";
      assert s == s + "";
    }
  }

  lemma {:induction false} NoSpaceEnds(r: string)
    requires r != "" && !IsSpace(r[0]) && !IsSpace(r[|r| - 1])
    ensures !OnlySpaces([r[0]]) && !OnlySpaces([r[|r| - 1]]) && !OnlySpaces(r)
  {
    assert r[0] in [r[0]] && r[|r| - 1] in [r[|r| - 1]] && r[0] in r;
  }

  lemma {:induction false} SpacesAround(before: string, middle: string, after: string)
    requires OnlySpaces(before) && OnlySpaces(after)
    ensures OnlySpaces(before + middle + after) <==> OnlySpaces(middle)
  {
    forall c <- middle ensures c in before + middle + after {}
  }

  /** Trimming takes space off both ends and nothing else, and leaves none there. */
  lemma {:induction false} TrimSplits(s: string) returns (before: string, after: string)
    ensures s == before + Trim(s) + after && OnlySpaces(before) && OnlySpaces(after)
    ensures Trim(s) != "" ==> !OnlySpaces([Trim(s)[0]]) && !OnlySpaces([Trim(s)[|Trim(s)| - 1]])
    ensures Trim(s) == "" <==> OnlySpaces(s)
  {
    before := TrimLeftSplits(s);
    after := TrimRightSplits(TrimLeft(s));
    var r := Trim(s);
    assert before + (r + after) == before + r + after;
    hide TrimLeft, TrimRight, OnlySpaces, IsSpace;
    SpacesAround(before, r, after);
    if r == "" { NothingIsSpaces(); } else { NoSpaceEnds(r); }
  }

  lemma {:induction false} NothingIsSpaces()
    ensures OnlySpaces("")
  {
  }

  /** Lowering changes the Latin capitals to their small letters and no other character. */
  lemma {:induction false} LowerMeans(s: string)
    ensures forall i, k :: 0 <= i < |s| && 0 <= k < 26 && s[i] == "ABCDEFGHIJKLMNOPQRSTUVWXYZ"[k] ==>
              Lower(s)[i] == "abcdefghijklmnopqrstuvwxyz"[k]
    ensures forall i :: 0 <= i < |s| && (s[i] < 'A' || s[i] > 'Z') ==> Lower(s)[i] == s[i]
  {
  }
}
