/**
 * The handful of JavaScript string operations the core relies on, over `seq<char>`:
 * `startsWith`, `indexOf`, `includes`, `replace` of the first occurrence by the empty
 * string, `slice` with a positive or a negative bound, and `trim`.
 */
module Strings {
  import opened Wrappers

  function Min(a: int, b: int): (m: int)
    ensures m <= a && m <= b && (m == a || m == b)
  {
    if a <= b then a else b
  }

  /** JavaScript truthiness of a `string | undefined`: defined and non-empty. */
  predicate IsSet(v: Option<string>) { v.Some? && v.value != "" }

  /** JavaScript `s.startsWith(p)`. */
  predicate StartsWith(s: string, p: string) {
    |p| <= |s| && s[..|p|] == p
  }

  /** JavaScript `s.endsWith(p)`. */
  predicate EndsWith(s: string, p: string) {
    |p| <= |s| && s[|s| - |p|..] == p
  }

  /** `pat` occurs in `s` at index `k`. */
  predicate OccursAt(s: string, pat: string, k: int) {
    0 <= k && k + |pat| <= |s| && s[k..k + |pat|] == pat
  }

  /** JavaScript `s.indexOf(pat, from)`: the first index at or after `from` where `pat` occurs. */
  function IndexOfFrom(s: string, pat: string, from: nat): (r: Option<nat>)
    decreases |s| - from
    ensures r.Some? ==> from <= r.value && OccursAt(s, pat, r.value)
    ensures r.Some? ==> forall k :: from <= k < r.value ==> !OccursAt(s, pat, k)
    ensures r.None? ==> forall k :: from <= k ==> !OccursAt(s, pat, k)
  {
    if from + |pat| > |s| then None
    else if s[from..from + |pat|] == pat then Some(from)
    else IndexOfFrom(s, pat, from + 1)
  }

  function IndexOf(s: string, pat: string): (r: Option<nat>) { IndexOfFrom(s, pat, 0) }

  /** JavaScript `s.includes(sub)`. */
  predicate Contains(s: string, sub: string) { IndexOf(s, sub).Some? }

  /**
   * JavaScript `s.replace(pat, '')` with a string pattern: the first occurrence of `pat`
   * is cut out; without one, `s` comes back unchanged.
   */
  function RemoveFirst(s: string, pat: string): (r: string)
    ensures !Contains(s, pat) ==> r == s
    ensures Contains(s, pat) ==> |r| == |s| - |pat|
    ensures IndexOf(s, pat).Some? ==>
      var k := IndexOf(s, pat).value;
      k <= |r| && s == r[..k] + pat + r[k..]
  {
    match IndexOf(s, pat)
    case None => s
    case Some(k) =>
      var r := s[..k] + s[k + |pat|..];
      assert r[..k] == s[..k] && r[k..] == s[k + |pat|..];
      assert s == s[..k] + s[k..k + |pat|] + s[k + |pat|..];
      r
  }

  /** JavaScript `s.slice(0, n)` for `n >= 0`: at most the first `n` characters. */
  function SliceHead(s: string, n: nat): (r: string)
    ensures |r| == Min(n, |s|) && StartsWith(s, r)
  {
    s[..Min(n, |s|)]
  }

  /** JavaScript `s.slice(-n)` for `n > 0`: at most the last `n` characters. */
  function SliceTail(s: string, n: nat): (r: string)
    ensures |r| == Min(n, |s|) && r == s[|s| - |r|..]
  {
    s[|s| - Min(n, |s|)..]
  }

  /**
   * The characters `String.prototype.trim` removes: ECMAScript WhiteSpace (tab, vertical tab,
   * form feed, space, no-break space, byte-order mark and the other Unicode "Zs" space
   * separators) and LineTerminator (line feed, carriage return, U+2028, U+2029).
   */
  predicate IsWhiteSpace(c: char) {
    || c == '\t' || c == '\n' || c == '\U{000B}' || c == '\U{000C}' || c == '\r' || c == ' '
    || c == '\U{00A0}' || c == '\U{1680}' || ('\U{2000}' <= c <= '\U{200A}')
    || c == '\U{2028}' || c == '\U{2029}' || c == '\U{202F}' || c == '\U{205F}'
    || c == '\U{3000}' || c == '\U{FEFF}'
  }

  predicate AllWhiteSpace(s: string) {
    forall i :: 0 <= i < |s| ==> IsWhiteSpace(s[i])
  }

  /** What `trimStart` keeps: a suffix whose removed head is all white space. */
  function TrimStart(s: string): (r: string)
    ensures |r| <= |s| && r == s[|s| - |r|..]
    ensures forall i :: 0 <= i < |s| - |r| ==> IsWhiteSpace(s[i])
    ensures r != [] ==> !IsWhiteSpace(r[0])
  {
    if s != [] && IsWhiteSpace(s[0]) then
      var r := TrimStart(s[1..]);
      assert forall i :: 1 <= i < |s| - |r| ==> s[i] == s[1..][i - 1];
      r
    else s
  }

  /** What `trimEnd` keeps: a prefix whose removed tail is all white space. */
  function TrimEnd(s: string): (r: string)
    ensures |r| <= |s| && r == s[..|r|]
    ensures forall i :: |r| <= i < |s| ==> IsWhiteSpace(s[i])
    ensures r != [] ==> !IsWhiteSpace(r[|r| - 1])
  {
    if s != [] && IsWhiteSpace(s[|s| - 1]) then
      var r := TrimEnd(s[..|s| - 1]);
      assert forall i :: |r| <= i < |s| - 1 ==> s[i] == s[..|s| - 1][i];
      r
    else s
  }

  /**
   * JavaScript `s.trim()`: a contiguous piece of `s` that neither starts nor ends with white
   * space, and everything cut off on either side is white space.
   */
  function Trim(s: string): (r: string)
    ensures |r| <= |s|
    ensures r != [] ==> !IsWhiteSpace(r[0]) && !IsWhiteSpace(r[|r| - 1])
    ensures exists i: nat :: TrimmedAt(s, r, i)
  {
    var t := TrimStart(s);
    var r := TrimEnd(t);
    TrimPieces(s, t, r);
    r
  }

  /** Trimming the front and then the back leaves a piece of `s` with white space around it. */
  lemma TrimPieces(s: string, t: string, r: string)
    requires |t| <= |s| && t == s[|s| - |t|..]
    requires forall i :: 0 <= i < |s| - |t| ==> IsWhiteSpace(s[i])
    requires |r| <= |t| && r == t[..|r|]
    requires forall i :: |r| <= i < |t| ==> IsWhiteSpace(t[i])
    ensures TrimmedAt(s, r, |s| - |t|)
  {
    var i := |s| - |t|;
    assert r == s[i..i + |r|];
    var head, tail := s[..i], s[i + |r|..];
    assert AllWhiteSpace(head) by {
      forall j | 0 <= j < |head|
        ensures IsWhiteSpace(head[j])
      {
        assert head[j] == s[j];
      }
    }
    assert AllWhiteSpace(tail) by {
      forall j | 0 <= j < |tail|
        ensures IsWhiteSpace(tail[j])
      {
        assert tail[j] == t[|r| + j];
      }
    }
  }

  /** `r` is the piece of `s` at `i`, with only white space before and after it. */
  predicate TrimmedAt(s: string, r: string, i: nat) {
    && i + |r| <= |s| && r == s[i..i + |r|]
    && AllWhiteSpace(s[..i]) && AllWhiteSpace(s[i + |r|..])
  }

  /** A string trims to nothing exactly when every character of it is white space. */
  lemma TrimEmptyIffAllWhiteSpace(s: string)
    ensures Trim(s) == [] <==> AllWhiteSpace(s)
  {
    var r := Trim(s);
    var i: nat :| TrimmedAt(s, r, i);
    if r == [] {
      var head, tail := s[..i], s[i..];
      forall j | 0 <= j < |s|
        ensures IsWhiteSpace(s[j])
      {
        if j < i {
          assert s[j] == head[j];
        } else {
          assert s[j] == tail[j - i];
        }
      }
    } else {
      assert r[0] == s[i];
    }
  }

  /** A string that starts with `p` has `p` at index 0, so `replace(p, '')` strips that prefix. */
  lemma RemoveFirstOfPrefix(p: string, rest: string)
    ensures IndexOf(p + rest, p) == Some(0)
    ensures RemoveFirst(p + rest, p) == rest
  {
    assert (p + rest)[..|p|] == p;
  }

  /** Whatever surrounds it, a string contains each of its infixes. */
  lemma ContainsInfix(a: string, b: string, c: string)
    ensures Contains(a + b + c, b)
  {
    var s := a + b + c;
    assert s[|a|..|a| + |b|] == b;
    assert OccursAt(s, b, |a|);
  }
}
