/**
 * String assembly as the query builder uses it: joining a list with a
 * separator (Python's `sep.join(xs)`), splitting on a separator, and filling
 * a fixed template of literal pieces with arguments (an f-string).  Each
 * builder has a decoder beside it, and the lemmas here prove once, for all
 * separators and templates, that the decoder recovers what was assembled.
 */
module Text {
  import opened Wrappers

  /** `sep.join(xs)`. */
  function Join(xs: seq<string>, sep: string): string
  {
    if |xs| == 0 then ""
    else if |xs| == 1 then xs[0]
    else xs[0] + sep + Join(xs[1..], sep)
  }

  /** Index of the first occurrence of `c` in `s`, or `|s|` when there is none. */
  function IndexOf(s: string, c: char): (i: nat)
    ensures i <= |s|
    ensures i < |s| ==> s[i] == c
    ensures forall k :: 0 <= k < i ==> s[k] != c
  {
    if |s| == 0 then 0
    else if s[0] == c then 0
    else 1 + IndexOf(s[1..], c)
  }

  /**
   * Split `s` at each occurrence of `sep` (left to right, as `s.split(sep)`
   * does when no piece holds the separator's first character).
   */
  function SplitOn(s: string, sep: string): (r: seq<string>)
    requires |sep| > 0
    ensures |r| >= 1
    decreases |s|
  {
    var i := IndexOf(s, sep[0]);
    if i < |s| && sep <= s[i..] then [s[..i]] + SplitOn(s[i + |sep|..], sep)
    else [s]
  }

  /** No string of `xs` holds the character `c`. */
  predicate AllAvoid(xs: seq<string>, c: char)
  {
    forall k :: 0 <= k < |xs| ==> c !in xs[k]
  }

  lemma IndexOfAfter(a: string, b: string, c: char)
    requires c !in a
    requires |b| > 0 && b[0] == c
    ensures IndexOf(a + b, c) == |a|
  {
    if |a| > 0 {
      assert (a + b)[1..] == a[1..] + b;
      IndexOfAfter(a[1..], b, c);
    }
  }

  /** Joining after splitting gives back the original text, for every text. */
  lemma {:induction false} JoinSplit(s: string, sep: string)
    requires |sep| > 0
    ensures Join(SplitOn(s, sep), sep) == s
    decreases |s|
  {
    var i := IndexOf(s, sep[0]);
    if i < |s| && sep <= s[i..] {
      var rest := s[i + |sep|..];
      JoinSplit(rest, sep);
      assert SplitOn(s, sep) == [s[..i]] + SplitOn(rest, sep);
      var tail := SplitOn(rest, sep);
      assert ([s[..i]] + tail)[1..] == tail;
      assert s == s[..i] + sep + rest by {
        assert s[i..] == sep + rest;
      }
    }
  }

  /**
   * Splitting after joining gives back the list, provided the list is not
   * empty and no element holds the separator's first character.
   */
  lemma {:induction false} SplitJoin(xs: seq<string>, sep: string)
    requires |xs| >= 1 && |sep| > 0
    requires AllAvoid(xs, sep[0])
    ensures SplitOn(Join(xs, sep), sep) == xs
    decreases |xs|
  {
    if |xs| == 1 {
      assert IndexOf(xs[0], sep[0]) == |xs[0]|;
    } else {
      var rest := Join(xs[1..], sep);
      var s := xs[0] + sep + rest;
      assert xs[0] + (sep + rest) == s;
      IndexOfAfter(xs[0], sep + rest, sep[0]);
      assert s[|xs[0]|..] == sep + rest;
      assert s[..|xs[0]|] == xs[0];
      assert s[|xs[0]| + |sep|..] == rest;
      SplitJoin(xs[1..], sep);
      assert [xs[0]] + xs[1..] == xs;
    }
  }

  /**
   * An f-string with `|lits| - 1` holes: `lits[0] + args[0] + lits[1] + ... + lits[n]`.
   */
  function Fill(lits: seq<string>, args: seq<string>): string
    requires |lits| == |args| + 1
    decreases |args|
  {
    if |args| == 0 then lits[0]
    else lits[0] + args[0] + Fill(lits[1..], args[1..])
  }

  /**
   * Reads the holes of template `lits` back from `s`: each hole runs up to the
   * first occurrence of the first character of the literal that follows it.
   */
  function Match(lits: seq<string>, s: string): Option<seq<string>>
    requires |lits| >= 1
    decreases |lits|
  {
    if !(lits[0] <= s) then None
    else if |lits| == 1 then (if s == lits[0] then Some([]) else None)
    else if |lits[1]| == 0 then None
    else
      var rest := s[|lits[0]|..];
      var i := IndexOf(rest, lits[1][0]);
      match Match(lits[1..], rest[i..])
      case None => None
      case Some(tail) => Some([rest[..i]] + tail)
  }

  /** Every hole is followed by a non-empty literal whose first character the argument avoids. */
  predicate Separable(lits: seq<string>, args: seq<string>)
    requires |lits| == |args| + 1
  {
    forall k :: 1 <= k < |lits| ==> |lits[k]| > 0 && lits[k][0] !in args[k - 1]
  }

  lemma FillStartsWith(lits: seq<string>, args: seq<string>)
    requires |lits| == |args| + 1
    ensures lits[0] <= Fill(lits, args)
  {
  }

  /** Matching a filled template reads the first argument, then matches the rest. */
  lemma MatchStep(lits: seq<string>, args: seq<string>)
    requires |lits| == |args| + 1 && |args| > 0
    requires |lits[1]| > 0 && lits[1][0] !in args[0]
    ensures Match(lits, Fill(lits, args)) ==
      match Match(lits[1..], Fill(lits[1..], args[1..]))
      case None => None
      case Some(t) => Some([args[0]] + t)
  {
    var s := Fill(lits, args);
    var tail := Fill(lits[1..], args[1..]);
    assert s == lits[0] + (args[0] + tail);
    var rest := s[|lits[0]|..];
    assert rest == args[0] + tail;
    FillStartsWith(lits[1..], args[1..]);
    assert tail[..|lits[1]|] == lits[1];
    IndexOfAfter(args[0], tail, lits[1][0]);
    assert rest[..|args[0]|] == args[0];
    assert rest[|args[0]|..] == tail;
  }

  lemma SeparableTail(lits: seq<string>, args: seq<string>)
    requires |lits| == |args| + 1 && |args| > 0
    requires Separable(lits, args)
    ensures Separable(lits[1..], args[1..])
  {
    forall k | 1 <= k < |lits[1..]|
      ensures |lits[1..][k]| > 0 && lits[1..][k][0] !in args[1..][k - 1]
    {
      assert lits[1..][k] == lits[k + 1] && args[1..][k - 1] == args[k];
    }
  }

  /** Matching a filled template recovers its arguments. */
  lemma {:induction false} MatchFill(lits: seq<string>, args: seq<string>)
    requires |lits| == |args| + 1
    requires Separable(lits, args)
    ensures Match(lits, Fill(lits, args)) == Some(args)
    decreases |args|
  {
    if |args| > 0 {
      assert |lits[1]| > 0 && lits[1][0] !in args[0];
      MatchStep(lits, args);
      SeparableTail(lits, args);
      MatchFill(lits[1..], args[1..]);
      assert [args[0]] + args[1..] == args;
    }
  }

  /** The middle of `s` between a required prefix and a required suffix. */
  function Unwrap(s: string, prefix: string, suffix: string): Option<string>
  {
    if |prefix| + |suffix| <= |s| && prefix <= s && s[|s| - |suffix|..] == suffix
    then Some(s[|prefix|..|s| - |suffix|])
    else None
  }

  lemma UnwrapWrap(prefix: string, mid: string, suffix: string)
    ensures Unwrap(prefix + mid + suffix, prefix, suffix) == Some(mid)
  {
    var s := prefix + mid + suffix;
    assert s[|s| - |suffix|..] == suffix;
    assert s[|prefix|..|s| - |suffix|] == mid;
  }
}
