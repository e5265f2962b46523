/** The string handling of the agent: finding the JSON object in a model's answer
    (`extractJSON` in internal/agent/agent.go). */
module Text {
  /** Unicode white space, as strings.TrimSpace sees it. */
  predicate IsSpace(c: char) {
    || c == '\t' || c == '\n' || c == '\U{000b}' || c == '\U{000c}' || c == '\r' || c == ' '
    || c == '\U{0085}' || c == '\U{00a0}' || c == '\U{1680}'
    || '\U{2000}' <= c <= '\U{200a}' || c == '\U{2028}' || c == '\U{2029}'
    || c == '\U{202f}' || c == '\U{205f}' || c == '\U{3000}'
  }

  function TrimLeft(s: string): string {
    if s != "" && IsSpace(s[0]) then TrimLeft(s[1..]) else s
  }

  function TrimRight(s: string): string {
    if s != "" && IsSpace(s[|s| - 1]) then TrimRight(s[..|s| - 1]) else s
  }

  function TrimSpace(s: string): string {
    TrimRight(TrimLeft(s))
  }

  /** Position of the first `c`, or -1. */
  function Index(s: string, c: char): (i: int)
    ensures -1 <= i < |s|
    ensures i >= 0 ==> s[i] == c
    ensures forall k :: 0 <= k < (if i < 0 then |s| else i) ==> s[k] != c
  {
    if s == "" then -1
    else if s[0] == c then 0
    else
      var k := Index(s[1..], c);
      if k < 0 then -1 else k + 1
  }

  /** Position of the last `c`, or -1. */
  function LastIndex(s: string, c: char): (i: int)
    ensures -1 <= i < |s|
    ensures i >= 0 ==> s[i] == c
    ensures forall k :: i < k < |s| ==> s[k] != c
  {
    if s == "" then -1
    else if s[|s| - 1] == c then |s| - 1
    else LastIndex(s[..|s| - 1], c)
  }

  /** From the first '{' to the last '}' of the trimmed text, or all of it when there is no such stretch. */
  function ExtractJSON(s: string): string {
    var t := TrimSpace(s);
    var i := Index(t, '{');
    var j := LastIndex(t, '}');
    if i >= 0 && j > i then t[i..j + 1] else t
  }

  // ---------------------------------------------------------------- trimming

  lemma {:induction false} TrimLeftKeeps(s: string)
    ensures TrimLeft(s) == "" || !IsSpace(TrimLeft(s)[0])
    ensures |TrimLeft(s)| <= |s| && s[|s| - |TrimLeft(s)|..] == TrimLeft(s)
  {
    if s != "" && IsSpace(s[0]) {
      TrimLeftKeeps(s[1..]);
    }
  }

  lemma {:induction false} TrimRightKeeps(s: string)
    ensures TrimRight(s) <= s
    ensures TrimRight(s) == "" || !IsSpace(TrimRight(s)[|TrimRight(s)| - 1])
    ensures forall k :: |TrimRight(s)| <= k < |s| ==> IsSpace(s[k])
  {
    if s != "" && IsSpace(s[|s| - 1]) {
      TrimRightKeeps(s[..|s| - 1]);
    }
  }

  /** Trimming again changes nothing. */
  lemma TrimmedStays(s: string)
    ensures TrimSpace(TrimSpace(s)) == TrimSpace(s)
  {
    TrimLeftKeeps(s);
    var l := TrimLeft(s);
    TrimRightKeeps(l);
    var t := TrimRight(l);
    assert t != "" ==> t[0] == l[0];
    assert TrimLeft(t) == t;
  }

  lemma {:induction false} TrimLeftUpTo(p: string, rest: string)
    requires rest != "" && !IsSpace(rest[0])
    ensures TrimLeft(p + rest) == TrimLeft(p) + rest
  {
    if p == "" {
      assert p + rest == rest;
    } else {
      assert (p + rest)[1..] == p[1..] + rest;
      TrimLeftUpTo(p[1..], rest);
    }
  }

  lemma {:induction false} TrimRightUpTo(front: string, x: string)
    requires front != "" && !IsSpace(front[|front| - 1])
    ensures TrimRight(front + x) == front + TrimRight(x)
  {
    if x == "" {
      assert front + x == front;
    } else {
      assert (front + x)[..|front + x| - 1] == front + x[..|x| - 1];
      TrimRightUpTo(front, x[..|x| - 1]);
    }
  }

  predicate Blank(s: string) {
    forall k :: 0 <= k < |s| ==> IsSpace(s[k])
  }

  lemma {:induction false} TrimLeftSplits(s: string) returns (front: string)
    ensures s == front + TrimLeft(s) && Blank(front)
    ensures TrimLeft(s) != "" ==> !IsSpace(TrimLeft(s)[0])
  {
    if s != "" && IsSpace(s[0]) {
      var rest := TrimLeftSplits(s[1..]);
      front := [s[0]] + rest;
    } else {
      front := "";
    }
  }

  lemma TrimRightSplits(s: string) returns (back: string)
    ensures s == TrimRight(s) + back && Blank(back)
    ensures TrimRight(s) != "" ==> !IsSpace(TrimRight(s)[|TrimRight(s)| - 1])
  {
    TrimRightKeeps(s);
    back := s[|TrimRight(s)|..];
  }

  /** Trimming takes white space off both ends, all of it and nothing else; ASCII blanks are white space. */
  lemma TrimSpaceStrips(s: string) returns (before: string, after: string)
    ensures s == before + TrimSpace(s) + after && Blank(before) && Blank(after)
    ensures var t := TrimSpace(s); t != "" ==> !IsSpace(t[0]) && !IsSpace(t[|t| - 1])
    ensures Blank(" \t\n\r") && !IsSpace('{') && !IsSpace('}')
  {
    before := TrimLeftSplits(s);
    after := TrimRightSplits(TrimLeft(s));
    var t := TrimSpace(s);
    assert t != "" ==> t[0] == TrimLeft(s)[0];
  }

  // ---------------------------------------------------------------- laws

  predicate IsObjectText(s: string) {
    |s| >= 2 && s[0] == '{' && s[|s| - 1] == '}'
  }

  lemma ObjectIsFixed(s: string)
    requires IsObjectText(s)
    ensures ExtractJSON(s) == s
  {
    assert TrimLeft(s) == s && TrimRight(s) == s;
    assert Index(s, '{') == 0 && LastIndex(s, '}') == |s| - 1;
  }

  /** Extracting twice is extracting once. */
  lemma ExtractIdempotent(s: string)
    ensures ExtractJSON(ExtractJSON(s)) == ExtractJSON(s)
  {
    var t := TrimSpace(s);
    var i, j := Index(t, '{'), LastIndex(t, '}');
    if i >= 0 && j > i {
      ObjectIsFixed(t[i..j + 1]);
    } else {
      TrimmedStays(s);
    }
  }

  lemma IndexAfter(p: string, rest: string, c: char)
    requires c !in p && rest != "" && rest[0] == c
    ensures Index(p + rest, c) == |p|
  {
    var s := p + rest;
    assert s[|p|] == c;
    assert forall k :: 0 <= k < |p| ==> s[k] == p[k];
  }

  lemma LastIndexBefore(front: string, x: string, c: char)
    requires c !in x && front != "" && front[|front| - 1] == c
    ensures LastIndex(front + x, c) == |front| - 1
  {
    var s := front + x;
    assert s[|front| - 1] == c;
    assert forall k :: |front| <= k < |s| ==> s[k] == x[k - |front|];
  }

  lemma {:induction false} TrimmedSubset(p: string, c: char)
    requires c !in p
    ensures c !in TrimLeft(p) && c !in TrimRight(p)
  {
    TrimLeftKeeps(p);
    TrimRightKeeps(p);
  }

  /** Trimming stops at an object's braces. */
  lemma TrimWrapped(prefix: string, obj: string, suffix: string)
    requires IsObjectText(obj)
    ensures TrimSpace(prefix + obj + suffix) == TrimLeft(prefix) + obj + TrimRight(suffix)
  {
    var p := TrimLeft(prefix);
    assert prefix + obj + suffix == prefix + (obj + suffix);
    TrimLeftUpTo(prefix, obj + suffix);
    assert p + (obj + suffix) == (p + obj) + suffix;
    TrimRightUpTo(p + obj, suffix);
  }

  /** An object wrapped in any text without '{' before it and without '}' after it comes out exactly. */
  lemma ExtractFindsObject(prefix: string, obj: string, suffix: string)
    requires '{' !in prefix && '}' !in suffix && IsObjectText(obj)
    ensures ExtractJSON(prefix + obj + suffix) == obj
  {
    var p, x := TrimLeft(prefix), TrimRight(suffix);
    TrimWrapped(prefix, obj, suffix);
    TrimmedSubset(prefix, '{');
    TrimmedSubset(suffix, '}');
    var t := p + obj + x;
    assert t == p + (obj + x);
    IndexAfter(p, obj + x, '{');
    LastIndexBefore(p + obj, x, '}');
    assert t[|p|..|p| + |obj|] == obj;
  }

  predicate HasBracedStretch(s: string) {
    exists m, n :: 0 <= m < n < |s| && s[m] == '{' && s[n] == '}'
  }

  lemma BracesFound(t: string)
    ensures HasBracedStretch(t) <==> Index(t, '{') >= 0 && LastIndex(t, '}') > Index(t, '{')
    ensures IsObjectText(t) ==> HasBracedStretch(t)
  {
    var i, j := Index(t, '{'), LastIndex(t, '}');
    if i >= 0 && j > i {
      assert t[i] == '{' && t[j] == '}';
    }
    if IsObjectText(t) {
      assert t[0] == '{' && t[|t| - 1] == '}';
    }
  }

  /** The result is an object text exactly when the trimmed input has a '{' with a '}' after it, and the
      whole trimmed input otherwise. */
  lemma ExtractShape(s: string)
    ensures IsObjectText(ExtractJSON(s)) <==> HasBracedStretch(TrimSpace(s))
    ensures !HasBracedStretch(TrimSpace(s)) ==> ExtractJSON(s) == TrimSpace(s)
  {
    BracesFound(TrimSpace(s));
  }

  /** The result is always a contiguous part of the input. */
  lemma ExtractIsAStretch(s: string) returns (before: string, after: string)
    ensures s == before + ExtractJSON(s) + after
  {
    var front := TrimLeftSplits(s);
    var back := TrimRightSplits(TrimLeft(s));
    var t := TrimSpace(s);
    var i, j := Index(t, '{'), LastIndex(t, '}');
    var lo, hi := if i >= 0 && j > i then i else 0, if i >= 0 && j > i then j + 1 else |t|;
    Reassemble(s, front, TrimLeft(s), t, back, lo, hi);
    before, after := front + t[..lo], t[hi..] + back;
  }

  lemma Reassemble(s: string, front: string, l: string, t: string, back: string, lo: nat, hi: nat)
    requires s == front + l && l == t + back && lo <= hi <= |t|
    ensures s == front + t[..lo] + t[lo..hi] + (t[hi..] + back)
  {
    assert t == t[..lo] + t[lo..hi] + t[hi..];
  }
}
