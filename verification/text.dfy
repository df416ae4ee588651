/** The two string operations the digest e-mail depends on:
    `Array.prototype.join` with a one-character separator, and its inverse,
    `String.prototype.split` on that character. */
module Text {

  const NEWLINE: char := '\n'

  /** Index of the first `c` in `s`, or `|s|` when `s` has none. */
  function IndexOf(s: string, c: char): (i: nat)
    ensures i <= |s|
    ensures i < |s| ==> s[i] == c
    ensures forall j :: 0 <= j < i ==> s[j] != c
    decreases |s|
  {
    if |s| == 0 then 0
    else if s[0] == c then 0
    else 1 + IndexOf(s[1..], c)
  }

  /** `parts.join(sep)`: the empty list joins to "", one part joins to itself. */
  function Join(parts: seq<string>, sep: char): string
    decreases |parts|
  {
    if |parts| == 0 then ""
    else if |parts| == 1 then parts[0]
    else parts[0] + [sep] + Join(parts[1..], sep)
  }

  /** `s.split(sep)`: always at least one piece, and no piece holds `sep`. */
  function Split(s: string, sep: char): (pieces: seq<string>)
    ensures |pieces| > 0
    ensures forall k :: 0 <= k < |pieces| ==> sep !in pieces[k]
    decreases |s|
  {
    var i := IndexOf(s, sep);
    if i == |s| then [s]
    else [s[..i]] + Split(s[i + 1..], sep)
  }

  /** A string without `c` has no index of `c`. */
  lemma IndexOfAbsent(s: string, c: char)
    requires c !in s
    ensures IndexOf(s, c) == |s|
  {
    assert forall j :: 0 <= j < |s| ==> s[j] in s;
  }

  /** In `p + [c] + rest`, with no `c` in `p`, the first `c` is the one after `p`. */
  lemma IndexOfAfter(p: string, c: char, rest: string)
    requires c !in p
    ensures IndexOf(p + [c] + rest, c) == |p|
  {
    var s := p + [c] + rest;
    assert s[|p|] == c;
    assert forall j :: 0 <= j < |p| ==> s[j] == p[j] && p[j] in p;
  }

  /** Splitting a joined list gives the list back, provided no part holds the
      separator and the list is not empty ("" splits to [""], not to []). */
  lemma {:induction false} SplitJoin(parts: seq<string>, sep: char)
    requires |parts| > 0
    requires forall k :: 0 <= k < |parts| ==> sep !in parts[k]
    ensures Split(Join(parts, sep), sep) == parts
    decreases |parts|
  {
    var p := parts[0];
    if |parts| == 1 {
      IndexOfAbsent(p, sep);
    } else {
      var rest := Join(parts[1..], sep);
      var s := p + [sep] + rest;
      assert Join(parts, sep) == s;
      IndexOfAfter(p, sep, rest);
      assert s[..|p|] == p;
      assert s[|p| + 1..] == rest;
      SplitJoin(parts[1..], sep);
      assert parts == [p] + parts[1..];
    }
  }

  /** Joining the pieces of a split gives the string back. */
  lemma {:induction false} JoinSplit(s: string, sep: char)
    ensures Join(Split(s, sep), sep) == s
    decreases |s|
  {
    var i := IndexOf(s, sep);
    if i < |s| {
      var tail := s[i + 1..];
      JoinSplit(tail, sep);
      var pieces := Split(s, sep);
      assert pieces == [s[..i]] + Split(tail, sep);
      assert pieces[1..] == Split(tail, sep);
      assert s == s[..i] + [sep] + tail;
    }
  }
}
