/**
 * The handful of Go `strings` functions the collectors use, for a one-character
 * separator: Split, Join, HasPrefix/HasSuffix, TrimPrefix/TrimSuffix and an
 * ASCII-only ToLower.
 */
module GoStrings {

  /** Position of the first `c` in `s`, or `|s|` when there is none. */
  function IndexOf(s: string, c: char): (i: nat)
    ensures i <= |s|
    ensures i < |s| ==> s[i] == c
    ensures forall k :: 0 <= k < i ==> s[k] != c
  {
    if |s| == 0 then 0
    else if s[0] == c then 0
    else 1 + IndexOf(s[1..], c)
  }

  /** `strings.Split(s, string(c))`: the pieces between occurrences of `c`. */
  function Split(s: string, c: char): (parts: seq<string>)
    ensures |parts| >= 1
    ensures forall k :: 0 <= k < |parts| ==> c !in parts[k]
    ensures |parts| == 1 <==> c !in s
    decreases |s|
  {
    var i := IndexOf(s, c);
    if i == |s| then [s]
    else [s[..i]] + Split(s[i + 1..], c)
  }

  /** `strings.Join(parts, string(c))`; the empty list joins to "". */
  function Join(parts: seq<string>, c: char): string
  {
    if |parts| == 0 then ""
    else if |parts| == 1 then parts[0]
    else parts[0] + [c] + Join(parts[1..], c)
  }

  /** Every occurrence of `c` in `s` replaced by `d`. */
  function Replace(s: string, c: char, d: char): (r: string)
    ensures |r| == |s|
    ensures forall k :: 0 <= k < |s| ==> r[k] == (if s[k] == c then d else s[k])
  {
    seq(|s|, k requires 0 <= k < |s| => if s[k] == c then d else s[k])
  }

  /**
   * The two shapes of a split: `s` has no `c` and is the only piece, or `s`
   * is a first piece free of `c`, then `c`, then the rest, split further.
   */
  lemma SplitCases(s: string, c: char) returns (i: nat)
    ensures i <= |s|
    ensures i == |s| ==> c !in s && Split(s, c) == [s]
    ensures i < |s| ==> s == s[..i] + [c] + s[i + 1..] && c !in s[..i]
    ensures i < |s| ==> Split(s, c) == [s[..i]] + Split(s[i + 1..], c)
  {
    i := IndexOf(s, c);
    if i < |s| {
      Decompose(s, i);
    }
  }

  /** Splitting and joining again with the same separator gives back the string. */
  lemma {:induction false} JoinSplit(s: string, c: char)
    ensures Join(Split(s, c), c) == s
    decreases |s|
  {
    var i := SplitCases(s, c);
    if i < |s| {
      var a, rest := s[..i], s[i + 1..];
      JoinSplit(rest, c);
      JoinCons(a, Split(rest, c), c);
    }
  }

  /** Joining a head onto a non-empty list puts one separator between them. */
  lemma JoinCons(a: string, tail: seq<string>, c: char)
    requires |tail| >= 1
    ensures Join([a] + tail, c) == a + [c] + Join(tail, c)
  {
    assert ([a] + tail)[1..] == tail;
  }

  /** Joining pieces free of `c` and splitting again gives back the pieces. */
  lemma {:induction false} SplitJoin(parts: seq<string>, c: char)
    requires |parts| >= 1
    requires forall k :: 0 <= k < |parts| ==> c !in parts[k]
    ensures Split(Join(parts, c), c) == parts
    decreases |parts|
  {
    if |parts| > 1 {
      SplitJoin(parts[1..], c);
      SplitAfter(parts[0], Join(parts[1..], c), c);
      assert [parts[0]] + parts[1..] == parts;
    }
  }

  /** A leading piece free of `c` is split off as the first segment. */
  lemma SplitAfter(a: string, t: string, c: char)
    requires c !in a
    ensures Split(a + [c] + t, c) == [a] + Split(t, c)
  {
    var s := a + [c] + t;
    assert s[|a|] == c;
    assert forall k :: 0 <= k < |a| ==> s[k] == a[k];
    assert IndexOf(s, c) == |a|;
    assert s[..|a|] == a;
    assert s[|a| + 1..] == t;
  }

  /** A string free of `c` splits into itself alone. */
  lemma SplitFree(s: string, c: char)
    requires c !in s
    ensures Split(s, c) == [s]
  {
  }

  /** A piece free of `c`, followed by nothing or by `c`, is the first piece. */
  lemma FirstPiece(b: string, t: string, c: char)
    requires c !in b
    requires t == [] || t[0] == c
    ensures Split(b + t, c)[0] == b
  {
    if t == [] {
      assert b + t == b;
      SplitFree(b, c);
    } else {
      assert b + t == b + [c] + t[1..];
      SplitAfter(b, t[1..], c);
    }
  }

  /**
   * The second piece of `a c b t`, for `a` and `b` free of `c` and `t` empty
   * or starting with `c`, is `b`.
   */
  lemma SecondPiece(a: string, b: string, t: string, c: char)
    requires c !in a && c !in b
    requires t == [] || t[0] == c
    ensures c in a + [c] + b + t
    ensures |Split(a + [c] + b + t, c)| >= 2 && Split(a + [c] + b + t, c)[1] == b
  {
    var s := a + [c] + b + t;
    assert s[|a|] == c;
    assert s == a + [c] + (b + t);
    SplitAfter(a, b + t, c);
    FirstPiece(b, t, c);
  }

  /** Joining the pieces of `s` with another separator replaces every `c` by `d`. */
  lemma {:induction false} JoinSplitReplaces(s: string, c: char, d: char)
    ensures Join(Split(s, c), d) == Replace(s, c, d)
    decreases |s|
  {
    var i := SplitCases(s, c);
    if i < |s| {
      var a, rest := s[..i], s[i + 1..];
      JoinSplitReplaces(rest, c, d);
      JoinCons(a, Split(rest, c), d);
      ReplaceAppend(a + [c], rest, c, d);
      ReplaceAppend(a, [c], c, d);
      ReplaceFree(a, c, d);
      assert Replace([c], c, d) == [d];
    } else {
      ReplaceFree(s, c, d);
    }
  }

  /** A string is its prefix, the character at `i` and its suffix. */
  lemma Decompose(s: string, i: nat)
    requires i < |s|
    ensures s == s[..i] + [s[i]] + s[i + 1..]
  {
  }

  lemma ReplaceAppend(a: string, b: string, c: char, d: char)
    ensures Replace(a + b, c, d) == Replace(a, c, d) + Replace(b, c, d)
  {
  }

  lemma ReplaceFree(a: string, c: char, d: char)
    requires forall k :: 0 <= k < |a| ==> a[k] != c
    ensures Replace(a, c, d) == a
  {
  }

  predicate IsUpper(ch: char) { 'A' <= ch <= 'Z' }

  /** ASCII lower-casing of one character. */
  function LowerChar(ch: char): (r: char)
    ensures !IsUpper(r)
    ensures IsUpper(ch) ==> r as int == ch as int + 32
    ensures !IsUpper(ch) ==> r == ch
  {
    if IsUpper(ch) then (ch as int + 32) as char else ch
  }

  /** `strings.ToLower`, restricted to ASCII letters. */
  function Lower(s: string): (r: string)
    ensures |r| == |s|
    ensures forall k :: 0 <= k < |s| ==> r[k] == LowerChar(s[k])
  {
    seq(|s|, k requires 0 <= k < |s| => LowerChar(s[k]))
  }

  /** Lower-casing twice is lower-casing once. */
  lemma LowerIdempotent(s: string)
    ensures Lower(Lower(s)) == Lower(s)
  {
    assert forall k :: 0 <= k < |s| ==> Lower(Lower(s))[k] == Lower(s)[k];
  }

  /** The boolean-flag test of the collectors: `strings.ToLower(v) == "true"`. */
  predicate IsTrue(v: string)
  {
    Lower(v) == "true"
  }

  /** IsTrue accepts exactly the sixteen capitalisations of "true". */
  lemma IsTrueSpellings(v: string)
    ensures IsTrue(v) <==>
      |v| == 4 && v[0] in "tT" && v[1] in "rR" && v[2] in "uU" && v[3] in "eE"
  {
    if |v| == 4 && v[0] in "tT" && v[1] in "rR" && v[2] in "uU" && v[3] in "eE" {
      assert Lower(v) == "true";
    }
    if IsTrue(v) {
      assert |v| == 4;
      assert LowerChar(v[0]) == 't' && LowerChar(v[1]) == 'r';
      assert LowerChar(v[2]) == 'u' && LowerChar(v[3]) == 'e';
    }
  }

  predicate HasPrefix(s: string, p: string) { |p| <= |s| && s[..|p|] == p }

  predicate HasSuffix(s: string, p: string) { |p| <= |s| && s[|s| - |p|..] == p }

  /** Any string ends with what was appended to it. */
  lemma SuffixOf(s: string, p: string)
    ensures HasSuffix(s + p, p)
  {
    assert (s + p)[|s|..] == p;
  }

  /** `strings.TrimPrefix`: drops `p` once when `s` starts with it. */
  function TrimPrefix(s: string, p: string): (r: string)
    ensures HasPrefix(s, p) ==> p + r == s
    ensures !HasPrefix(s, p) ==> r == s
  {
    if HasPrefix(s, p) then s[|p|..] else s
  }

  /** `strings.TrimSuffix`: drops `p` once when `s` ends with it. */
  function TrimSuffix(s: string, p: string): (r: string)
    ensures HasSuffix(s, p) ==> r + p == s
    ensures !HasSuffix(s, p) ==> r == s
  {
    if HasSuffix(s, p) then s[..|s| - |p|] else s
  }

  /** Wrapping a core in a prefix and a suffix and trimming both recovers the core. */
  lemma TrimBoth(p: string, core: string, q: string)
    ensures TrimSuffix(TrimPrefix(p + core + q, p), q) == core
  {
    var s := p + core + q;
    assert s[..|p|] == p;
    assert s[|p|..] == core + q;
    assert (core + q)[|core + q| - |q|..] == q;
  }
}
