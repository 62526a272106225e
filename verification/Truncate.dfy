/** Byte-limited truncation of UTF-8 text (internal/base/strutil/truncate.go). */
module Truncate {

  type byte = x: int | 0 <= x < 256
  type Bytes = seq<byte>

  const NEWLINE: byte := 10

  // ---------- UTF-8, as RFC 3629 section 4 defines it ----------

  predicate Continuation(s: Bytes, i: nat, low: int, high: int) {
    i < |s| && low <= s[i] <= high
  }

  /** Length of the code point at the front; 0 when the front is not well formed. */
  function RuneLength(s: Bytes): (n: nat)
    ensures n <= 4 && n <= |s|
  {
    if s == [] then 0
    else
      var b := s[0];
      if b < 0x80 then 1
      else if 0xC2 <= b <= 0xDF then
        if Continuation(s, 1, 0x80, 0xBF) then 2 else 0
      else if 0xE0 <= b <= 0xEF then
        var low := if b == 0xE0 then 0xA0 else 0x80;
        var high := if b == 0xED then 0x9F else 0xBF;
        if Continuation(s, 1, low, high) && Continuation(s, 2, 0x80, 0xBF) then 3 else 0
      else if 0xF0 <= b <= 0xF4 then
        var low := if b == 0xF0 then 0x90 else 0x80;
        var high := if b == 0xF4 then 0x8F else 0xBF;
        if Continuation(s, 1, low, high) && Continuation(s, 2, 0x80, 0xBF) && Continuation(s, 3, 0x80, 0xBF) then 4 else 0
      else 0
  }

  predicate Valid(s: Bytes) {
    s == [] || (RuneLength(s) > 0 && Valid(s[RuneLength(s)..]))
  }

  /** A code point is recognised from its own bytes, whatever follows them. */
  lemma {:induction false} RuneIsLocal(a: Bytes, b: Bytes)
    requires RuneLength(a) > 0
    ensures RuneLength(a + b) == RuneLength(a)
  {
  }

  lemma {:induction false} ValidConcat(a: Bytes, b: Bytes)
    requires Valid(a) && Valid(b)
    ensures Valid(a + b)
  {
    if a == [] {
      assert a + b == b;
    } else {
      var n := RuneLength(a);
      RuneIsLocal(a, b);
      ValidConcat(a[n..], b);
      assert (a + b)[n..] == a[n..] + b;
    }
  }

  /** strings.ToValidUTF8 with an empty replacement. */
  function ToValid(s: Bytes): (r: Bytes)
    ensures |r| <= |s|
  {
    if s == [] then []
    else
      var n := RuneLength(s);
      if n == 0 then ToValid(s[1..]) else s[..n] + ToValid(s[n..])
  }

  /** The cleaned text is well formed, and only well-formed text is left alone. */
  lemma {:induction false} ToValidCleans(s: Bytes)
    ensures Valid(ToValid(s))
    ensures ToValid(s) == s <==> Valid(s)
  {
    if s == [] {
    } else {
      var n := RuneLength(s);
      if n == 0 {
        ToValidCleans(s[1..]);
      } else {
        ToValidCleans(s[n..]);
        RuneOnItsOwn(s);
        ValidConcat(s[..n], ToValid(s[n..]));
        assert s == s[..n] + s[n..];
        assert ToValid(s)[n..] == ToValid(s[n..]);
      }
    }
  }

  lemma {:induction false} RuneOnItsOwn(s: Bytes)
    requires RuneLength(s) > 0
    ensures Valid(s[..RuneLength(s)])
  {
  }

  // ---------- cutting back to a code point boundary ----------

  ghost predicate LongestValidPrefix(s: Bytes, r: Bytes) {
    r <= s && Valid(r) && forall m :: |r| < m <= |s| ==> !Valid(s[..m])
  }

  /** Drop last bytes until the rest is well formed. */
  function CutBack(s: Bytes): (r: Bytes)
    ensures LongestValidPrefix(s, r)
  {
    if Valid(s) then assert s[..|s|] == s; s
    else
      var shorter := s[..|s| - 1];
      var r := CutBack(shorter);
      assert forall m :: |r| < m <= |s| ==> !Valid(s[..m]) by {
        forall m | |r| < m <= |s| ensures !Valid(s[..m]) {
          if m == |s| { assert s[..m] == s; } else { assert s[..m] == shorter[..m]; }
        }
      }
      r
  }

  method CutBackLoop(s: Bytes) returns (r: Bytes)
    ensures r == CutBack(s)
  {
    r := s;
    while |r| > 0 && !Valid(r)
      invariant r <= s && CutBack(r) == CutBack(s)
    {
      r := r[..|r| - 1];
    }
  }

  /** Cutting well-formed text costs at most the three bytes of a split code point. */
  lemma {:induction false} BoundaryIsNear(s: Bytes, n: nat) returns (m: nat)
    requires Valid(s) && n <= |s|
    ensures m <= n <= m + 3 && Valid(s[..m])
    decreases |s|
  {
    m := 0;
    if s != [] {
      var k := RuneLength(s);
      if k <= n {
        var rest := BoundaryIsNear(s[k..], n - k);
        RuneOnItsOwn(s);
        ValidConcat(s[..k], s[k..][..rest]);
        m := k + rest;
        assert s[..m] == s[..k] + s[k..][..rest];
      }
    }
  }

  lemma {:induction false} CutBackLosesAtMostThree(s: Bytes, n: nat)
    requires Valid(s) && n <= |s|
    ensures n - 3 <= |CutBack(s[..n])|
  {
    var m := BoundaryIsNear(s, n);
    assert s[..n][..m] == s[..m];
  }

  // ---------- the two truncations ----------

  function Truncated(value: Bytes, maxBytes: int): Bytes {
    if maxBytes <= 0 then []
    else if |value| <= maxBytes then value
    else CutBack(value[..maxBytes])
  }

  method TruncateBytes(value: Bytes, maxBytes: int) returns (r: Bytes)
    ensures r == Truncated(value, maxBytes)
  {
    if maxBytes <= 0 { return []; }
    if |value| <= maxBytes { return value; }
    r := CutBackLoop(value[..maxBytes]);
  }

  /** The result always fits and is a prefix. It is well formed exactly when the text was cut or
      was well formed already: short malformed text is handed back as it is. */
  lemma {:induction false} TruncatedIsValidIff(value: Bytes, maxBytes: int)
    ensures Truncated(value, maxBytes) <= value
    ensures |Truncated(value, maxBytes)| <= if maxBytes > 0 then maxBytes else 0
    ensures Valid(Truncated(value, maxBytes)) <==> maxBytes <= 0 || |value| > maxBytes || Valid(value)
    ensures Valid(value) && 0 < maxBytes < |value| ==> maxBytes - 3 <= |Truncated(value, maxBytes)|
  {
    if 0 < maxBytes < |value| && Valid(value) {
      CutBackLosesAtMostThree(value, maxBytes);
    }
  }

  /** A lone byte that begins no code point is returned as it is. */
  lemma {:induction false} TruncatedExample()
    ensures Truncated([0xFF], 8) == [0xFF] && !Valid([0xFF])
  {
    assert RuneLength([0xFF]) == 0;
  }

  function TrimNewlines(s: Bytes): (r: Bytes)
    ensures r <= s && (r == [] || r[|r| - 1] != NEWLINE)
    ensures forall i :: |r| <= i < |s| ==> s[i] == NEWLINE
  {
    if s != [] && s[|s| - 1] == NEWLINE then TrimNewlines(s[..|s| - 1]) else s
  }

  lemma {:induction false} AsciiEndsOnlyItself(s: Bytes)
    requires s != [] && RuneLength(s) == |s| && s[|s| - 1] < 0x80
    ensures |s| == 1
  {
  }

  /** A trailing ASCII byte is a code point of its own. */
  lemma {:induction false} DropLastAscii(s: Bytes)
    requires s != [] && s[|s| - 1] < 0x80 && Valid(s)
    ensures Valid(s[..|s| - 1])
  {
    var n := RuneLength(s);
    if n == |s| {
      AsciiEndsOnlyItself(s);
      assert s[..|s| - 1] == [];
    } else {
      var first, tail := s[..n], s[n..];
      DropLastAscii(tail);
      RuneOnItsOwn(s);
      ValidConcat(first, tail[..|tail| - 1]);
      assert s[..|s| - 1] == first + tail[..|tail| - 1];
    }
  }

  lemma {:induction false} TrimNewlinesKeepsValid(s: Bytes)
    requires Valid(s)
    ensures Valid(TrimNewlines(s))
  {
    if s != [] && s[|s| - 1] == NEWLINE {
      DropLastAscii(s);
      TrimNewlinesKeepsValid(s[..|s| - 1]);
    }
  }

  function WithMarker(value: Bytes, maxBytes: int, marker: Bytes): Bytes {
    var clean := ToValid(value);
    var room := maxBytes - |marker| - 1;
    if maxBytes <= 0 then []
    else if |clean| <= maxBytes then clean
    else if |marker| >= maxBytes then marker[..maxBytes]
    else if room <= 0 then marker
    else TrimNewlines(CutBack(clean[..room])) + [NEWLINE] + marker
  }

  method TruncateBytesWithMarker(value: Bytes, maxBytes: int, marker: Bytes) returns (r: Bytes)
    ensures r == WithMarker(value, maxBytes, marker)
  {
    var text := ToValid(value);
    if maxBytes <= 0 { return []; }
    if |text| <= maxBytes { return text; }
    if |marker| >= maxBytes { return marker[..maxBytes]; }
    var prefixLimit := maxBytes - |marker| - 1;
    if prefixLimit <= 0 { return marker; }
    if |text| > prefixLimit {
      text := CutBackLoop(text[..prefixLimit]);
    }
    var kept := TrimNewlines(text);
    assert WithMarker(value, maxBytes, marker) == kept + [NEWLINE] + marker;
    return kept + [NEWLINE] + marker;
  }

  /** The limit is never exceeded, whatever the marker. */
  lemma {:induction false} WithMarkerFits(value: Bytes, maxBytes: int, marker: Bytes)
    ensures |WithMarker(value, maxBytes, marker)| <= if maxBytes > 0 then maxBytes else 0
  {
  }

  /** A cut keeps as much as it may: the longest well-formed prefix that leaves room for a newline and the
      marker, without the newlines at its end. */
  lemma {:induction false} WithMarkerKeepsMost(value: Bytes, maxBytes: int, marker: Bytes) returns (prefix: Bytes, kept: Bytes)
    requires |ToValid(value)| > maxBytes > |marker| + 1
    ensures WithMarker(value, maxBytes, marker) == kept + [NEWLINE] + marker
    ensures kept <= prefix && (forall i :: |kept| <= i < |prefix| ==> prefix[i] == NEWLINE) && (kept == [] || kept[|kept| - 1] != NEWLINE)
    ensures var room := maxBytes - |marker| - 1;
            && |prefix| <= room <= |prefix| + 3 && prefix <= ToValid(value) && Valid(prefix)
            && forall m :: |prefix| < m <= room ==> !Valid(ToValid(value)[..m])
  {
    var clean, room := ToValid(value), maxBytes - |marker| - 1;
    prefix := CutBack(clean[..room]);
    kept := TrimNewlines(prefix);
    ToValidCleans(value);
    CutBackLosesAtMostThree(clean, room);
    forall m | |prefix| < m <= room ensures !Valid(clean[..m]) {
      assert clean[..room][..m] == clean[..m];
    }
  }

  /** Text that fits is only cleaned; a marker that leaves no room for text stands alone, cut to the limit. */
  lemma {:induction false} WithMarkerOtherwise(value: Bytes, maxBytes: int, marker: Bytes)
    ensures maxBytes <= 0 ==> WithMarker(value, maxBytes, marker) == []
    ensures 0 < maxBytes && |ToValid(value)| <= maxBytes ==> WithMarker(value, maxBytes, marker) == ToValid(value)
    ensures 0 < maxBytes < |ToValid(value)| && maxBytes <= |marker| + 1 ==>
              WithMarker(value, maxBytes, marker) == if maxBytes <= |marker| then marker[..maxBytes] else marker
  {
  }

  predicate Ascii(s: Bytes) {
    forall i :: 0 <= i < |s| ==> s[i] < 0x80
  }

  lemma {:induction false} AsciiIsValid(s: Bytes)
    requires Ascii(s)
    ensures Valid(s)
  {
    if s == [] {
    } else {
      AsciiIsValid(s[1..]);
    }
  }

  lemma {:induction false} MarkedIsValid(text: Bytes, marker: Bytes)
    requires Valid(text) && Ascii(marker)
    ensures Valid(text + [NEWLINE] + marker)
  {
    AsciiIsValid([NEWLINE] + marker);
    ValidConcat(text, [NEWLINE] + marker);
    assert text + ([NEWLINE] + marker) == text + [NEWLINE] + marker;
  }

  /** With an ASCII marker the result is well formed, even from malformed text, and either keeps the
      cleaned text or ends with (what fits of) the marker. */
  lemma {:induction false} WithMarkerIsValid(value: Bytes, maxBytes: int, marker: Bytes)
    requires Ascii(marker)
    ensures Valid(WithMarker(value, maxBytes, marker))
    ensures var r := WithMarker(value, maxBytes, marker);
            maxBytes > 0 && r != ToValid(value) ==>
              r <= marker || (exists kept: Bytes :: kept <= ToValid(value) && r == kept + [NEWLINE] + marker)
  {
    var clean := ToValid(value);
    var room := maxBytes - |marker| - 1;
    ToValidCleans(value);
    AsciiIsValid(marker);
    if 0 < maxBytes < |clean| {
      if |marker| >= maxBytes {
        AsciiIsValid(marker[..maxBytes]);
      } else if room > 0 {
        var kept := TrimNewlines(CutBack(clean[..room]));
        TrimNewlinesKeepsValid(CutBack(clean[..room]));
        MarkedIsValid(kept, marker);
        assert kept <= clean;
      }
    }
  }
}
