/**
 * The string primitives the conversation pipeline is built from, with the
 * meaning Python gives them on ASCII text: `str.lower`, `str.isspace`,
 * `str.strip`, `str.startswith`, the substring test `p in s`, `str.split()`
 * without a separator, `sep.join(xs)` and the slice `xs[:n]`.
 */
module Text {

  /** Python's `str.isspace` on the ASCII range (\x1c-\x1f count as whitespace too). */
  predicate IsSpace(c: char) {
    c == ' ' || c == '\t' || c == '\n' || c == '\r' || c == '\U{B}' || c == '\U{C}'
    || ('\U{1C}' <= c <= '\U{1F}')
  }

  predicate AllSpace(s: string) {
    forall i :: 0 <= i < |s| ==> IsSpace(s[i])
  }

  predicate IsUpper(c: char) {
    'A' <= c <= 'Z'
  }

  function LowerChar(c: char): char {
    if IsUpper(c) then (c as int + 32) as char else c
  }

  /** Python's `s.lower()` on ASCII letters: the result has no upper-case letter left. */
  function Lower(s: string): (r: string)
    ensures |r| == |s|
    ensures forall i :: 0 <= i < |r| ==> !IsUpper(r[i])
    ensures forall i :: 0 <= i < |r| ==> (IsSpace(r[i]) <==> IsSpace(s[i]))
  {
    seq(|s|, i requires 0 <= i < |s| => LowerChar(s[i]))
  }

  /** Python's `s.startswith(p)`. */
  predicate StartsWith(s: string, p: string) {
    p <= s
  }

  /** Python's `s.endswith(p)`. */
  predicate EndsWith(s: string, p: string) {
    |p| <= |s| && s[|s| - |p|..] == p
  }

  // ---------------------------------------------------------------------------
  // Substring test

  /** `p` stands in `s` at offset `i`. */
  predicate OccursAt(p: string, s: string, i: nat) {
    i + |p| <= |s| && s[i..i + |p|] == p
  }

  /** Characters `k..` of `p` agree with `s` from offset `i + k` on. */
  function MatchFrom(p: string, s: string, i: nat, k: nat): (r: bool)
    requires i + |p| <= |s| && k <= |p|
    ensures r <==> s[i + k..i + |p|] == p[k..]
    decreases |p| - k
  {
    if k == |p| then true
    else
      var rest := MatchFrom(p, s, i, k + 1);
      assert s[i + k..i + |p|] == [s[i + k]] + s[i + k + 1..i + |p|];
      assert p[k..] == [p[k]] + p[k + 1..];
      s[i + k] == p[k] && rest
  }

  /** The search behind `p in s`, trying the offsets from `i` on. */
  function OccursFrom(p: string, s: string, i: nat): (r: bool)
    ensures r <==> exists j: nat :: i <= j && OccursAt(p, s, j)
    decreases |s| + 1 - i
  {
    if |s| < i + |p| then false
    else
      assert p[0..] == p;
      var here := MatchFrom(p, s, i, 0);
      assert here == OccursAt(p, s, i);
      here || OccursFrom(p, s, i + 1)
  }

  /** Python's substring test `p in s`. */
  function Occurs(p: string, s: string): (r: bool)
    ensures r <==> exists j: nat :: OccursAt(p, s, j)
  {
    OccursFrom(p, s, 0)
  }

  /** A character of `p` that `s` lacks keeps `p` out of `s`. */
  lemma MissingCharNoOccurrence(p: string, s: string, c: char)
    requires c in p && c !in s
    ensures !Occurs(p, s)
  {
    var k :| 0 <= k < |p| && p[k] == c;
    forall j: nat
      ensures !OccursAt(p, s, j)
    {
      if j + |p| <= |s| {
        assert s[j..j + |p|][k] == s[j + k];
      }
    }
  }

  /** Lower-casing the text never brings an upper-case letter into it. */
  lemma UppercaseNeverOccursInLower(p: string, s: string)
    requires exists k :: 0 <= k < |p| && IsUpper(p[k])
    ensures !Occurs(p, Lower(s))
  {
    var k :| 0 <= k < |p| && IsUpper(p[k]);
    var t := Lower(s);
    forall j: nat
      ensures !OccursAt(p, t, j)
    {
      if j + |p| <= |t| {
        assert t[j..j + |p|][k] == t[j + k];
      }
    }
  }

  // ---------------------------------------------------------------------------
  // Whitespace splitting and stripping

  /** Number of whitespace characters that open `s`. */
  function LeadingSpace(s: string): (k: nat)
    ensures k <= |s| && AllSpace(s[..k])
    ensures k < |s| ==> !IsSpace(s[k])
  {
    if s != [] && IsSpace(s[0]) then 1 + LeadingSpace(s[1..]) else 0
  }

  /** Number of whitespace characters that close `s`. */
  function TrailingSpace(s: string): (k: nat)
    ensures k <= |s| && AllSpace(s[|s| - k..])
    ensures k < |s| ==> !IsSpace(s[|s| - k - 1])
  {
    if s != [] && IsSpace(s[|s| - 1]) then 1 + TrailingSpace(s[..|s| - 1]) else 0
  }

  /** Python's `s.strip()`: `s` less its leading and trailing whitespace. */
  function Strip(s: string): (r: string)
    ensures exists i, j :: 0 <= i <= j <= |s| && r == s[i..j] && AllSpace(s[..i]) && AllSpace(s[j..])
    ensures r == [] || (!IsSpace(r[0]) && !IsSpace(r[|r| - 1]))
    ensures AllSpace(s) <==> r == []
  {
    var i := LeadingSpace(s);
    var t := s[i..];
    var j := i + |t| - TrailingSpace(t);
    assert s[j..] == t[|t| - TrailingSpace(t)..];
    assert t[..|t| - TrailingSpace(t)] == s[i..j];
    t[..|t| - TrailingSpace(t)]
  }

  lemma {:induction false} LeadingSpaceOfPadded(w: string, y: string)
    requires AllSpace(w) && y != [] && !IsSpace(y[0])
    ensures LeadingSpace(w + y) == |w|
    decreases |w|
  {
    if w == [] {
      assert w + y == y;
    } else {
      assert IsSpace((w + y)[0]);
      assert (w + y)[1..] == w[1..] + y;
      assert AllSpace(w[1..]) by {
        forall i | 0 <= i < |w| - 1
          ensures IsSpace(w[1..][i])
        {
          assert w[1..][i] == w[i + 1];
        }
      }
      LeadingSpaceOfPadded(w[1..], y);
    }
  }

  lemma {:induction false} TrailingSpaceBound(y: string, k: nat)
    requires 0 < k <= |y| && !IsSpace(y[k - 1])
    ensures TrailingSpace(y) <= |y| - k
    decreases |y|
  {
    if IsSpace(y[|y| - 1]) {
      assert y[..|y| - 1][k - 1] == y[k - 1];
      TrailingSpaceBound(y[..|y| - 1], k);
    }
  }

  /**
   * Stripping `w + y`, where `w` is whitespace and `y` opens with `k`
   * characters the first and last of which are not whitespace, leaves those
   * `k` characters at the front.
   */
  lemma StripKeepsFront(w: string, y: string, k: nat)
    requires AllSpace(w)
    requires 0 < k <= |y| && !IsSpace(y[0]) && !IsSpace(y[k - 1])
    ensures |Strip(w + y)| >= k && Strip(w + y)[..k] == y[..k]
  {
    LeadingSpaceOfPadded(w, y);
    assert (w + y)[|w|..] == y;
    TrailingSpaceBound(y, k);
  }

  /** Length of the run of non-space characters that opens `s`. */
  function WordLength(s: string): (n: nat)
    ensures n <= |s|
    ensures forall i :: 0 <= i < n ==> !IsSpace(s[i])
    ensures n < |s| ==> IsSpace(s[n])
  {
    if s == [] || IsSpace(s[0]) then 0 else 1 + WordLength(s[1..])
  }

  /** A token of `str.split()`: non-empty, without whitespace. */
  predicate IsWord(t: string) {
    t != [] && forall i :: 0 <= i < |t| ==> !IsSpace(t[i])
  }

  /** Python's `s.split()`: the maximal runs of non-space characters, in order. */
  function Tokens(s: string): (ts: seq<string>)
    ensures forall k :: 0 <= k < |ts| ==> IsWord(ts[k])
    decreases |s|
  {
    if s == [] then []
    else if IsSpace(s[0]) then Tokens(s[1..])
    else
      var n := WordLength(s);
      [s[..n]] + Tokens(s[n..])
  }

  /** `s.split()` is empty exactly when `s` is empty or all whitespace. */
  lemma {:induction false} TokensEmptyIff(s: string)
    ensures Tokens(s) == [] <==> AllSpace(s)
    decreases |s|
  {
    if s != [] && IsSpace(s[0]) {
      TokensEmptyIff(s[1..]);
      assert AllSpace(s) <==> AllSpace(s[1..]) by {
        assert forall i :: 0 < i < |s| ==> s[i] == s[1..][i - 1];
      }
    }
  }

  /** A word, split, is itself and nothing else. */
  lemma TokensOfWord(w: string)
    requires IsWord(w)
    ensures Tokens(w) == [w]
  {
    var n := WordLength(w);
    assert n == |w|;
    assert w[..n] == w && w[n..] == [];
  }

  /** Splitting distributes over a concatenation whose seam is whitespace. */
  lemma {:induction false} TokensAppend(a: string, b: string)
    requires a == [] || b == [] || IsSpace(a[|a| - 1]) || IsSpace(b[0])
    ensures Tokens(a + b) == Tokens(a) + Tokens(b)
    decreases |a|, 1
  {
    if a == [] {
      assert a + b == b;
    } else if IsSpace(a[0]) {
      TokensAppendAfterSpace(a, b);
    } else {
      TokensAppendAfterWord(a, b);
    }
  }

  lemma {:induction false} TokensAppendAfterSpace(a: string, b: string)
    requires a != [] && IsSpace(a[0])
    requires b == [] || IsSpace(a[|a| - 1]) || IsSpace(b[0])
    ensures Tokens(a + b) == Tokens(a) + Tokens(b)
    decreases |a|, 0
  {
    var rest := a[1..];
    assert (a + b)[0] == a[0] && (a + b)[1..] == rest + b;
    assert rest == [] || a[|a| - 1] == rest[|rest| - 1];
    TokensAppend(rest, b);
  }

  lemma {:induction false} TokensAppendAfterWord(a: string, b: string)
    requires a != [] && !IsSpace(a[0])
    requires b == [] || IsSpace(a[|a| - 1]) || IsSpace(b[0])
    ensures Tokens(a + b) == Tokens(a) + Tokens(b)
    decreases |a|, 0
  {
    var m := WordLength(a);
    var word, rest := a[..m], a[m..];
    WordLengthAppend(a, b);
    assert (a + b)[0] == a[0] && (a + b)[..m] == word && (a + b)[m..] == rest + b;
    assert Tokens(a + b) == [word] + Tokens(rest + b);
    assert rest == [] || a[|a| - 1] == rest[|rest| - 1];
    TokensAppend(rest, b);
    ConsAppend(word, Tokens(rest), Tokens(b));
  }

  /** The first word of `a + b` is that of `a` when the seam is whitespace. */
  lemma {:induction false} WordLengthAppend(a: string, b: string)
    requires a == [] || b == [] || IsSpace(a[|a| - 1]) || IsSpace(b[0])
    requires a != []
    ensures WordLength(a + b) == WordLength(a)
    decreases |a|
  {
    if !IsSpace(a[0]) {
      assert (a + b)[1..] == a[1..] + b;
      if |a| == 1 {
        assert a[1..] + b == b;
      } else {
        WordLengthAppend(a[1..], b);
      }
    }
  }

  /** `" ".join(ws).split() == ws` for words `ws`: splitting undoes joining with a space. */
  lemma {:induction false} TokensOfJoin(ws: seq<string>)
    requires forall k :: 0 <= k < |ws| ==> IsWord(ws[k])
    ensures Tokens(Join(ws, " ")) == ws
    decreases |ws|
  {
    if |ws| == 1 {
      TokensOfWord(ws[0]);
    } else if |ws| > 1 {
      var init, last := ws[..|ws| - 1], ws[|ws| - 1];
      TokensOfJoin(init);
      TokensAppend(Join(init, " "), " " + last);
      assert (" " + last)[1..] == last;
      TokensOfWord(last);
      assert Join(ws, " ") == Join(init, " ") + (" " + last);
      assert init + [last] == ws;
    }
  }

  /** `set(s.lower().split())`: the keywords the relevance filters compare. */
  function Keywords(s: string): set<string> {
    set t | t in Tokens(Lower(s))
  }

  /** Empty or whitespace-only text has no keywords. */
  lemma KeywordsOfWhitespace(s: string)
    requires AllSpace(s)
    ensures Keywords(s) == {}
  {
    TokensEmptyIff(Lower(s));
  }

  /** `keywords.intersection(set(s.lower().split()))` is non-empty. */
  predicate Overlaps(keywords: set<string>, s: string) {
    keywords * Keywords(s) != {}
  }

  // ---------------------------------------------------------------------------
  // Joining and slicing

  /** Python's `sep.join(xs)`. */
  function Join(xs: seq<string>, sep: string): string
    decreases |xs|
  {
    if |xs| == 0 then ""
    else if |xs| == 1 then xs[0]
    else Join(xs[..|xs| - 1], sep) + sep + xs[|xs| - 1]
  }

  /** Python's slice `xs[:n]`: the first `n` elements, or all of them if fewer. */
  function Take<T>(xs: seq<T>, n: nat): (r: seq<T>)
    ensures |r| == if |xs| <= n then |xs| else n
    ensures r <= xs
  {
    if |xs| <= n then xs else xs[..n]
  }

  // ---------------------------------------------------------------------------
  // Sequence facts the proofs use

  lemma ConsAppend<T>(x: T, s: seq<T>, t: seq<T>)
    ensures [x] + (s + t) == [x] + s + t
  {
  }

  lemma AppendFour(a: string, b: string, c: string, d: string)
    ensures a + b + c + d == a + (b + c + d)
  {
  }

  /** `a + b + c + d` starts with `a` and ends with `d`. */
  lemma FramedBy(a: string, b: string, c: string, d: string)
    ensures StartsWith(a + b + c + d, a) && EndsWith(a + b + c + d, d)
  {
    var r := a + b + c + d;
    assert r[..|a|] == a;
    assert r[|r| - |d|..] == d;
  }

  /** The prefix one longer is the prefix extended by the next element. */
  lemma PrefixSnoc<T>(s: seq<T>, j: nat)
    requires j < |s|
    ensures s[..j + 1] == s[..j] + [s[j]]
  {
  }

  lemma EmptyIffNoElement<T>(s: seq<T>)
    ensures s == [] <==> forall x :: x !in s
  {
    if s != [] {
      assert s[0] in s;
    }
  }
}
