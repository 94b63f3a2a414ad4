/** The ECMAScript string operations the CLI relies on: trim, includes,
    indexOf/lastIndexOf, replaceAll with a string pattern, join, and
    toLowerCase restricted to ASCII letters. */
module Strings {
  import opened Wrappers

  /** WhiteSpace and LineTerminator code points of ECMAScript: what `trim`
      removes and what `\s` matches in a regular expression. */
  predicate IsWhitespace(c: char) {
    || c == '\t' || c == '\n' || c == '\U{B}' || c == '\U{C}' || c == '\r' || c == ' '
    || c == '\U{A0}' || c == '\U{1680}' || ('\U{2000}' <= c <= '\U{200A}')
    || c == '\U{2028}' || c == '\U{2029}' || c == '\U{202F}' || c == '\U{205F}'
    || c == '\U{3000}' || c == '\U{FEFF}'
  }

  /** `\w` of a regular expression without the `u` flag. */
  predicate IsWordChar(c: char) {
    ('a' <= c <= 'z') || ('A' <= c <= 'Z') || ('0' <= c <= '9') || c == '_'
  }

  predicate StartsWith(s: string, prefix: string) {
    |prefix| <= |s| && s[..|prefix|] == prefix
  }

  predicate EndsWith(s: string, suffix: string) {
    |suffix| <= |s| && s[|s| - |suffix|..] == suffix
  }

  /** `p` occurs in `s` starting at index `k`. */
  predicate OccursAt(s: string, p: string, k: nat) {
    k + |p| <= |s| && s[k..k + |p|] == p
  }

  /** `s.indexOf(p, from)`, with None for -1. */
  function IndexOfFrom(s: string, p: string, from: nat): (r: Option<nat>)
    decreases |s| - from
    ensures r.Some? ==> from <= r.value && OccursAt(s, p, r.value)
    ensures r.Some? ==> forall k: nat :: from <= k < r.value ==> !OccursAt(s, p, k)
    ensures r.None? ==> forall k: nat :: from <= k ==> !OccursAt(s, p, k)
  {
    if from + |p| > |s| then None
    else if OccursAt(s, p, from) then Some(from)
    else IndexOfFrom(s, p, from + 1)
  }

  /** The last occurrence of `p` in `s` at or before index `k`. */
  function LastIndexAtOrBefore(s: string, p: string, k: int): (r: Option<nat>)
    decreases k + 1
    ensures r.Some? ==> r.value <= k && OccursAt(s, p, r.value)
    ensures r.Some? ==> forall j: nat :: r.value < j <= k ==> !OccursAt(s, p, j)
    ensures r.None? ==> forall j: nat :: j <= k ==> !OccursAt(s, p, j)
  {
    if k < 0 then None
    else if OccursAt(s, p, k) then Some(k)
    else LastIndexAtOrBefore(s, p, k - 1)
  }

  /** `s.lastIndexOf(p)`, with None for -1. */
  function LastIndexOf(s: string, p: string): (r: Option<nat>)
    ensures r.Some? ==> OccursAt(s, p, r.value)
    ensures r.Some? ==> forall j: nat :: r.value < j ==> !OccursAt(s, p, j)
    ensures r.None? ==> forall j: nat :: !OccursAt(s, p, j)
  {
    LastIndexAtOrBefore(s, p, |s| - |p|)
  }

  /** `s.includes(p)`. */
  predicate Contains(s: string, p: string)
    ensures Contains(s, p) <==> exists k: nat :: OccursAt(s, p, k)
  {
    IndexOfFrom(s, p, 0).Some?
  }

  function TrimStart(s: string): (r: string)
    ensures |r| <= |s| && r == s[|s| - |r|..]
    ensures forall i :: 0 <= i < |s| - |r| ==> IsWhitespace(s[i])
    ensures r == [] || !IsWhitespace(r[0])
  {
    if s != [] && IsWhitespace(s[0]) then TrimStart(s[1..]) else s
  }

  function TrimEnd(s: string): (r: string)
    ensures |r| <= |s| && r == s[..|r|]
    ensures forall i :: |r| <= i < |s| ==> IsWhitespace(s[i])
    ensures r == [] || !IsWhitespace(r[|r| - 1])
  {
    if s != [] && IsWhitespace(s[|s| - 1]) then TrimEnd(s[..|s| - 1]) else s
  }

  predicate AllWhitespace(t: string) {
    forall i :: 0 <= i < |t| ==> IsWhitespace(t[i])
  }

  /** `s.trim()`: drop leading and trailing white space. The result is the
      slice of `s` that starts after the leading white space; everything
      outside it is white space, and it has none at either end. */
  function Trim(s: string): (r: string)
    ensures var a := |s| - |TrimStart(s)|;
      && a + |r| <= |s| && r == s[a..a + |r|]
      && AllWhitespace(s[..a]) && AllWhitespace(s[a + |r|..])
    ensures r == [] || (!IsWhitespace(r[0]) && !IsWhitespace(r[|r| - 1]))
  {
    TrimBothEnds(s);
    TrimEnd(TrimStart(s))
  }

  /** Trimming the start, then the end, of `s` leaves a slice of `s` with
      only white space on either side. */
  lemma TrimBothEnds(s: string)
    ensures var t := TrimStart(s); var a := |s| - |t|; var r := TrimEnd(t);
      && a + |r| <= |s| && r == s[a..a + |r|]
      && AllWhitespace(s[..a]) && AllWhitespace(s[a + |r|..])
  {
    var t := TrimStart(s);
    var a := |s| - |t|;
    var r := TrimEnd(t);
    assert AllWhitespace(s[..a]) by {
      forall i | 0 <= i < a
        ensures IsWhitespace(s[..a][i])
      {
        assert s[..a][i] == s[i];
      }
    }
    var rest := s[a + |r|..];
    assert AllWhitespace(rest) by {
      forall i | 0 <= i < |rest|
        ensures IsWhitespace(rest[i])
      {
        assert rest[i] == t[|r| + i];
      }
    }
  }

  /** A string with no white space at either end is its own trim. */
  lemma TrimmedIsTrim(s: string)
    requires s == [] || (!IsWhitespace(s[0]) && !IsWhitespace(s[|s| - 1]))
    ensures Trim(s) == s
  {
  }

  /** `s.replaceAll(p, rep)` for a non-empty string pattern: every occurrence,
      left to right, without overlap. */
  function ReplaceAll(s: string, p: string, rep: string): string
    requires p != []
    decreases |s|
  {
    if |s| < |p| then s
    else if s[..|p|] == p then rep + ReplaceAll(s[|p|..], p, rep)
    else [s[0]] + ReplaceAll(s[1..], p, rep)
  }

  /** `xs.join(sep)`. */
  function Join(xs: seq<string>, sep: string): string {
    if xs == [] then ""
    else if |xs| == 1 then xs[0]
    else xs[0] + sep + Join(xs[1..], sep)
  }

  function LowerChar(c: char): char {
    if 'A' <= c <= 'Z' then (c as int - 'A' as int + 'a' as int) as char else c
  }

  /** `s.toLowerCase()` on ASCII letters. */
  function ToLower(s: string): (r: string)
    ensures |r| == |s|
    ensures forall i :: 0 <= i < |s| ==> r[i] == LowerChar(s[i])
  {
    seq(|s|, i requires 0 <= i < |s| => LowerChar(s[i]))
  }

  /** Joining a concatenation of two non-empty lists puts one separator between
      the two joins. */
  lemma {:induction false} JoinAppend(a: seq<string>, b: seq<string>, sep: string)
    requires a != [] && b != []
    ensures Join(a + b, sep) == Join(a, sep) + sep + Join(b, sep)
    decreases |a|
  {
    if |a| == 1 {
      assert (a + b)[1..] == b;
    } else {
      assert (a + b)[1..] == a[1..] + b;
      JoinAppend(a[1..], b, sep);
    }
  }

  /** `replaceAll` passes over a leading part that cannot start a match. */
  lemma {:induction false} ReplaceAllSkip(a: string, b: string, p: string, rep: string)
    requires p != []
    requires forall i :: 0 <= i < |a| ==> a[i] != p[0]
    ensures ReplaceAll(a + b, p, rep) == a + ReplaceAll(b, p, rep)
    decreases |a|
  {
    if a == [] {
      assert a + b == b;
    } else {
      var s := a + b;
      assert s[0] == a[0] && s[1..] == a[1..] + b;
      ReplaceAllSkip(a[1..], b, p, rep);
      if |s| < |p| {
        assert |b| < |p|;
        assert ReplaceAll(b, p, rep) == b;
        assert ReplaceAll(a[1..] + b, p, rep) == a[1..] + b;
        calc {
          ReplaceAll(s, p, rep);
          s;
          a + ReplaceAll(b, p, rep);
        }
      } else {
        assert s[..|p|] != p by { assert s[..|p|][0] == a[0] != p[0]; }
        calc {
          ReplaceAll(s, p, rep);
          [s[0]] + ReplaceAll(s[1..], p, rep);
          [a[0]] + (a[1..] + ReplaceAll(b, p, rep));
          { assert [a[0]] + a[1..] == a; }
          a + ReplaceAll(b, p, rep);
        }
      }
    }
  }
}
