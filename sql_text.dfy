/**
 * Single-quoted, comma-separated literal lists, as both adapters write them
 * inside a timestamp IN-clause, and the reading that recovers the members.
 */
module SqlText {
  import opened Wrappers
  import opened Strings

  /** Each item wrapped in single quotes. */
  function QuoteAll(xs: seq<string>): (r: seq<string>)
    ensures |r| == |xs|
  {
    if |xs| == 0 then [] else ["'" + xs[0] + "'"] + QuoteAll(xs[1..])
  }

  /** `'a', 'b', 'c'` */
  function QuotedList(xs: seq<string>): string
  {
    Join(", ", QuoteAll(xs))
  }

  /** Reads the members back out of a quoted list; `None` if it is not one. */
  function ParseQuotedList(s: string): Option<seq<string>>
    decreases |s|
  {
    if |s| == 0 then Some([])
    else if s[0] != '\'' || '\'' !in s[1..] then None
    else
      var j := IndexOf(s[1..], '\'');
      var item := s[1..j + 1];
      var rest := s[j + 2..];
      if |rest| == 0 then Some([item])
      else if |rest| < 2 || rest[..2] != ", " then None
      else
        match ParseQuotedList(rest[2..])
        case None => None
        case Some(items) => Some([item] + items)
  }

  predicate NoQuote(xs: seq<string>)
  {
    forall k :: 0 <= k < |xs| ==> '\'' !in xs[k]
  }

  /** The first member of a quoted list ends at the first quote after the opening one. */
  lemma QuotedHead(x: string, tail: string)
    requires '\'' !in x
    ensures var s := "'" + x + "'" + tail;
      && s[0] == '\'' && '\'' in s[1..]
      && IndexOf(s[1..], '\'') == |x|
      && s[1..|x| + 1] == x && s[|x| + 2..] == tail
  {
    var s := "'" + x + "'" + tail;
    assert s[1..] == x + "'" + tail;
    assert s[1..][|x|] == '\'';
    var j := IndexOf(s[1..], '\'');
    assert forall k :: 0 <= k < |x| ==> s[1..][k] == x[k];
    assert j <= |x| by {
      assert forall k :: 0 <= k < j ==> s[1..][..j][k] == s[1..][k];
    }
  }

  /** Reading a list that starts with a quoted member. */
  lemma ParseQuotedCons(x: string, tail: string)
    requires '\'' !in x
    ensures tail == "" ==> ParseQuotedList("'" + x + "'" + tail) == Some([x])
  {
    QuotedHead(x, tail);
  }

  /** A quoted member followed by `", "` and a readable list reads as that member, then the list. */
  lemma ParseQuotedConsList(x: string, rest: string, items: seq<string>)
    requires '\'' !in x
    requires ParseQuotedList(rest) == Some(items)
    ensures ParseQuotedList("'" + x + "'" + (", " + rest)) == Some([x] + items)
  {
    var tail := ", " + rest;
    QuotedHead(x, tail);
    assert |tail| >= 2 && tail[..2] == ", " && tail[2..] == rest;
  }

  lemma QuotedListCons(xs: seq<string>)
    requires |xs| > 1
    ensures QuotedList(xs) == "'" + xs[0] + "'" + (", " + QuotedList(xs[1..]))
  {
    assert QuoteAll(xs)[1..] == QuoteAll(xs[1..]);
  }

  lemma ParseQuotedListStep(xs: seq<string>)
    requires |xs| > 1 && NoQuote(xs)
    requires ParseQuotedList(QuotedList(xs[1..])) == Some(xs[1..])
    ensures ParseQuotedList(QuotedList(xs)) == Some(xs)
  {
    assert '\'' !in xs[0];
    QuotedListCons(xs);
    ParseQuotedConsList(xs[0], QuotedList(xs[1..]), xs[1..]);
    assert xs == [xs[0]] + xs[1..];
  }

  /** The members of a quoted list are exactly the quoted strings, in order. */
  lemma {:induction false} ParseQuotedListInverse(xs: seq<string>)
    requires NoQuote(xs)
    ensures ParseQuotedList(QuotedList(xs)) == Some(xs)
  {
    if |xs| == 1 {
      var x := xs[0];
      assert '\'' !in x;
      assert QuotedList(xs) == "'" + x + "'";
      assert QuotedList(xs) == "'" + x + "'" + "";
      ParseQuotedCons(x, "");
      assert xs == [x];
    } else if |xs| > 1 {
      ParseQuotedListInverse(xs[1..]);
      ParseQuotedListStep(xs);
    }
  }
}
