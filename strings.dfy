/**
 * Text helpers with Python's meaning: substring test (`sub in s`),
 * `sep.join(xs)`, `s.split(c)` for a one-character separator and `s.strip()`.
 */
module Strings {

  /** `pre` is a prefix of `s`. */
  predicate IsPrefix(pre: string, s: string)
  {
    |pre| <= |s| && s[..|pre|] == pre
  }

  /** `sub` occurs in `s` starting at position `i`. */
  predicate OccursAt(s: string, sub: string, i: int)
  {
    0 <= i <= |s| - |sub| && s[i..i + |sub|] == sub
  }

  /** Python's `sub in s`, as a left-to-right scan. */
  function Contains(s: string, sub: string): bool
  {
    IsPrefix(sub, s) || (|s| > 0 && Contains(s[1..], sub))
  }

  /** The scan finds `sub` exactly when `sub` occurs at some position of `s`. */
  lemma {:induction false} ContainsAt(s: string, sub: string)
    ensures Contains(s, sub) <==> exists i :: OccursAt(s, sub, i)
  {
    if IsPrefix(sub, s) {
      assert OccursAt(s, sub, 0);
    } else {
      if |s| > 0 {
        ContainsAt(s[1..], sub);
        if Contains(s[1..], sub) {
          var i :| OccursAt(s[1..], sub, i);
          assert s[1..][i..i + |sub|] == s[i + 1..i + 1 + |sub|];
          assert OccursAt(s, sub, i + 1);
        }
      }
      forall i | OccursAt(s, sub, i)
        ensures Contains(s, sub)
      {
        assert i != 0 by { assert s[0..0 + |sub|] == s[..|sub|]; }
        assert s[1..][i - 1..i - 1 + |sub|] == s[i..i + |sub|];
        assert OccursAt(s[1..], sub, i - 1);
      }
    }
  }

  /** A string that contains a marker also contains every prefix of that marker. */
  lemma ContainsPrefixOfMarker(s: string, marker: string, pre: string)
    requires IsPrefix(pre, marker)
    requires Contains(s, marker)
    ensures Contains(s, pre)
  {
    ContainsAt(s, marker);
    var i :| OccursAt(s, marker, i);
    assert s[i..i + |pre|] == marker[..|pre|];
    assert OccursAt(s, pre, i);
    ContainsAt(s, pre);
  }

  /** Python's `sep.join(xs)`. */
  function Join(sep: string, xs: seq<string>): string
  {
    if |xs| == 0 then ""
    else if |xs| == 1 then xs[0]
    else xs[0] + sep + Join(sep, xs[1..])
  }

  /** Python's `s.split(c)` for a one-character separator: never empty. */
  function SplitOn(s: string, c: char): (parts: seq<string>)
    ensures |parts| >= 1
    ensures forall k :: 0 <= k < |parts| ==> c !in parts[k]
    decreases |s|
  {
    if c !in s then [s]
    else
      var i := IndexOf(s, c);
      [s[..i]] + SplitOn(s[i + 1..], c)
  }

  /** Position of the first `c` in `s`. */
  function IndexOf(s: string, c: char): (i: nat)
    requires c in s
    ensures i < |s| && s[i] == c && c !in s[..i]
  {
    if s[0] == c then 0 else 1 + IndexOf(s[1..], c)
  }

  /** Splitting a comma-joined list gives the list back when no item holds the separator. */
  lemma {:induction false} SplitJoin(xs: seq<string>, c: char)
    requires |xs| >= 1
    requires forall k :: 0 <= k < |xs| ==> c !in xs[k]
    ensures SplitOn(Join([c], xs), c) == xs
  {
    if |xs| > 1 {
      SeparatorAfterFirst(xs[0], c, Join([c], xs[1..]));
      SplitJoin(xs[1..], c);
    }
  }

  /** In `x + [c] + rest` with `c` not in `x`, the first `c` is the one after `x`. */
  lemma SeparatorAfterFirst(x: string, c: char, rest: string)
    requires c !in x
    ensures var s := x + [c] + rest;
      c in s && IndexOf(s, c) == |x| && s[..|x|] == x && s[|x| + 1..] == rest
  {
    var s := x + [c] + rest;
    assert s[|x|] == c;
    var i := IndexOf(s, c);
    assert forall k :: 0 <= k < |x| ==> s[k] == x[k];
    assert i <= |x| by {
      assert forall k :: 0 <= k < i ==> s[..i][k] == s[k];
    }
    assert s[..|x|] == x;
    assert s[|x| + 1..] == rest;
  }

  /** The characters Python's `str.strip()` removes: those for which `str.isspace` holds. */
  predicate IsSpace(c: char)
  {
    ('\t' <= c <= '\r') || ('\U{1C}' <= c <= ' ') || c == '\U{85}' || c == '\U{A0}'
    || c == '\U{1680}' || ('\U{2000}' <= c <= '\U{200A}') || c == '\U{2028}' || c == '\U{2029}'
    || c == '\U{202F}' || c == '\U{205F}' || c == '\U{3000}'
  }

  function TrimLeft(s: string): (r: string)
    ensures |r| <= |s| && r == s[|s| - |r|..]
    ensures |r| == 0 || !IsSpace(r[0])
    ensures forall k :: 0 <= k < |s| - |r| ==> IsSpace(s[k])
  {
    if |s| > 0 && IsSpace(s[0]) then TrimLeft(s[1..]) else s
  }

  function TrimRight(s: string): (r: string)
    ensures |r| <= |s| && r == s[..|r|]
    ensures |r| == 0 || !IsSpace(r[|r| - 1])
    ensures forall k :: |r| <= k < |s| ==> IsSpace(s[k])
  {
    if |s| > 0 && IsSpace(s[|s| - 1]) then TrimRight(s[..|s| - 1]) else s
  }

  /** Python's `s.strip()`. */
  function Strip(s: string): (r: string)
  {
    TrimRight(TrimLeft(s))
  }

  /** No whitespace at either end. */
  predicate Unpadded(s: string)
  {
    |s| == 0 || (!IsSpace(s[0]) && !IsSpace(s[|s| - 1]))
  }

  /** Stripping leaves an unpadded string alone, and its result is always unpadded. */
  lemma StripUnpadded(s: string)
    ensures Unpadded(s) ==> Strip(s) == s
    ensures Unpadded(Strip(s))
  {
    var l := TrimLeft(s);
    var r := TrimRight(l);
    if |r| > 0 {
      assert r[0] == l[0];
    }
  }
}
