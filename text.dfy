/** String operations the source takes from JavaScript's `String.prototype`
    (`substring`/`slice` from 0, the `'...'` truncation idiom, `indexOf`,
    `replace` of a single character, `trim`) and number-to-decimal conversion
    for template literals. Strings are sequences of characters. */
module Text {

  /** `s.substring(0, n)` and `s.slice(0, n)` for `n >= 0`. */
  function Prefix(s: string, n: nat): (r: string)
    ensures |r| <= n && |r| <= |s|
    ensures r == s[..|r|]
    ensures |s| <= n ==> r == s
  {
    if |s| <= n then s else s[..n]
  }

  /** `s.substring(0, n) + (s.length > n ? '...' : '')`: the deterministic
      truncation of raw screenshot text before it enters a prompt. */
  function Truncate(s: string, n: nat): (r: string)
    ensures |r| <= n + 3
    ensures |s| <= n ==> r == s
    ensures |s| > n ==> |r| == n + 3 && r[..n] == s[..n] && r[n..] == "..."
  {
    Prefix(s, n) + (if |s| > n then "..." else "")
  }

  /** Truncation keeps short text as it is, and otherwise keeps exactly the first
      `n` characters followed by the marker, so the result is never longer than `n + 3`. */
  lemma TruncateSpec(s: string, n: nat)
    ensures |s| <= n ==> Truncate(s, n) == s
    ensures |s| > n ==> Truncate(s, n) == s[..n] + "..."
    ensures |Truncate(s, n)| <= n + 3
    ensures Truncate(s, n)[..|Prefix(s, n)|] == Prefix(s, n)
  {
  }

  /** Truncating text that was already truncated at the same limit changes nothing. */
  lemma TruncateIdempotent(s: string, n: nat)
    ensures Truncate(Truncate(s, n), n) == Truncate(s, n)
  {
    if |s| > n {
      var t := s[..n] + "...";
      assert Truncate(s, n) == t;
      assert t[..n] == s[..n];
    }
  }

  /** `s.indexOf(c)`, with `|s|` standing for "not found". */
  function IndexOf(s: string, c: char): (r: nat)
    ensures r <= |s|
    ensures r < |s| ==> s[r] == c
    ensures forall i :: 0 <= i < r ==> s[i] != c
    ensures r == |s| <==> c !in s
  {
    if s == [] then 0
    else if s[0] == c then 0
    else 1 + IndexOf(s[1..], c)
  }

  /** `s.replace(from, to)` with a one-character string pattern: only the first
      occurrence is replaced. */
  function ReplaceFirst(s: string, from: char, to: char): (r: string)
    ensures |r| == |s|
    ensures forall i :: 0 <= i < |s| ==> r[i] == (if i == IndexOf(s, from) then to else s[i])
  {
    var k := IndexOf(s, from);
    if k == |s| then s else s[k := to]
  }

  /** What `String.prototype.trim` removes: white space and line terminators. */
  predicate IsWhitespace(c: char)
  {
    || c == ' ' || c == '\t' || c == '\n' || c == '\r'
    || c == '\U{000B}' || c == '\U{000C}' || c == '\U{00A0}' || c == '\U{1680}'
    || ('\U{2000}' <= c <= '\U{200A}')
    || c == '\U{2028}' || c == '\U{2029}' || c == '\U{202F}' || c == '\U{205F}'
    || c == '\U{3000}' || c == '\U{FEFF}'
  }

  /** The first position at or after `i` that does not hold white space
      (`|s|` when there is none). */
  function SkipForward(s: string, i: nat): (j: nat)
    requires i <= |s|
    ensures i <= j <= |s|
    ensures j == |s| || !IsWhitespace(s[j])
    decreases |s| - i
  {
    if i < |s| && IsWhitespace(s[i]) then SkipForward(s, i + 1) else i
  }

  /** Everything `SkipForward` passes over is white space. */
  lemma {:induction false} SkipForwardPassesWhitespace(s: string, i: nat)
    requires i <= |s|
    ensures forall k :: i <= k < SkipForward(s, i) ==> IsWhitespace(s[k])
    decreases |s| - i
  {
    if i < |s| && IsWhitespace(s[i]) {
      SkipForwardPassesWhitespace(s, i + 1);
    }
  }

  /** Moving down from `j`, the first end position not preceded by white
      space, stopping at `lo`. */
  function SkipBackward(s: string, lo: nat, j: nat): (k: nat)
    requires lo <= j <= |s|
    ensures lo <= k <= j
    ensures k == lo || !IsWhitespace(s[k - 1])
    decreases j
  {
    if j > lo && IsWhitespace(s[j - 1]) then SkipBackward(s, lo, j - 1) else j
  }

  /** Everything `SkipBackward` passes over is white space. */
  lemma {:induction false} SkipBackwardPassesWhitespace(s: string, lo: nat, j: nat)
    requires lo <= j <= |s|
    ensures forall k :: SkipBackward(s, lo, j) <= k < j ==> IsWhitespace(s[k])
    decreases j
  {
    if j > lo && IsWhitespace(s[j - 1]) {
      SkipBackwardPassesWhitespace(s, lo, j - 1);
    }
  }

  /** Where the trimmed text starts in `s`. */
  function TrimFrom(s: string): nat
  {
    SkipForward(s, 0)
  }

  /** Where the trimmed text ends in `s`. */
  function TrimTo(s: string): (b: nat)
    ensures TrimFrom(s) <= b <= |s|
  {
    SkipBackward(s, TrimFrom(s), |s|)
  }

  /** `s.trim()`: the text between the leading and the trailing white space. */
  function Trim(s: string): (r: string)
    ensures |r| <= |s|
    ensures r == [] || (!IsWhitespace(r[0]) && !IsWhitespace(r[|r| - 1]))
  {
    s[TrimFrom(s)..TrimTo(s)]
  }

  /** What trimming drops is white space, at both ends, and what it keeps has
      no white space at either end. */
  lemma TrimSpec(s: string)
    ensures forall i :: 0 <= i < TrimFrom(s) ==> IsWhitespace(s[i])
    ensures forall i :: TrimTo(s) <= i < |s| ==> IsWhitespace(s[i])
    ensures Trim(s) == [] || (!IsWhitespace(Trim(s)[0]) && !IsWhitespace(Trim(s)[|Trim(s)| - 1]))
  {
    SkipForwardPassesWhitespace(s, 0);
    SkipBackwardPassesWhitespace(s, TrimFrom(s), |s|);
  }

  /** Text with no white space at either end is its own trim. */
  lemma TrimOfTrimmed(s: string)
    requires s == [] || (!IsWhitespace(s[0]) && !IsWhitespace(s[|s| - 1]))
    ensures Trim(s) == s
  {
    if s != [] {
      assert TrimFrom(s) == 0;
      assert TrimTo(s) == |s|;
    }
  }

  /** Trimming is idempotent. */
  lemma TrimIdempotent(s: string)
    ensures Trim(Trim(s)) == Trim(s)
  {
    TrimSpec(s);
    TrimOfTrimmed(Trim(s));
  }

  /** `a` is `b` with some characters deleted: its characters occur in `b` in
      the same order. */
  predicate IsSubsequence(a: string, b: string)
    decreases |b|
  {
    a == [] || (b != [] && (IsSubsequence(a, b[1..]) || (a[0] == b[0] && IsSubsequence(a[1..], b[1..]))))
  }

  /** A subsequence of a suffix is a subsequence of the whole text. */
  lemma {:induction false} SubsequenceOfSuffix(a: string, b: string, k: nat)
    requires k <= |b| && IsSubsequence(a, b[k..])
    ensures IsSubsequence(a, b)
    decreases k
  {
    if k > 0 {
      assert b[1..][k - 1..] == b[k..];
      SubsequenceOfSuffix(a, b[1..], k - 1);
    }
  }

  /** Concatenation is associative; stated once so that proofs about long
      concatenations need not rediscover it. */
  lemma AppendAssoc(a: string, b: string, c: string)
    ensures (a + b) + c == a + (b + c)
  {
  }

  /** The renderings of the elements of `xs`, in order, each given its
      0-based position. */
  function Join<T>(xs: seq<T>, render: (nat, T) -> string): string
    decreases |xs|
  {
    if xs == [] then ""
    else
      var last := |xs| - 1;
      Join(xs[..last], render) + render(last, xs[last])
  }

  /** One more element appends exactly its own rendering. */
  lemma JoinSnoc<T>(xs: seq<T>, i: nat, render: (nat, T) -> string)
    requires i < |xs|
    ensures Join(xs[..i + 1], render) == Join(xs[..i], render) + render(i, xs[i])
  {
    assert xs[..i + 1][..i] == xs[..i];
  }

  /** The renderings of the first `k` elements are a prefix of those of all. */
  lemma {:induction false} JoinPrefix<T>(xs: seq<T>, k: nat, render: (nat, T) -> string)
    requires k <= |xs|
    ensures |Join(xs[..k], render)| <= |Join(xs, render)|
    ensures Join(xs, render)[..|Join(xs[..k], render)|] == Join(xs[..k], render)
    decreases |xs|
  {
    if k < |xs| {
      var init := xs[..|xs| - 1];
      assert xs[..k] == init[..k];
      JoinPrefix(init, k, render);
    } else {
      assert xs[..k] == xs;
    }
  }

  /** The rendering of the element at position `k` sits right after the
      renderings of the elements before it. */
  lemma JoinAt<T>(xs: seq<T>, k: nat, render: (nat, T) -> string)
    requires k < |xs|
    ensures var off := |Join(xs[..k], render)|;
      && off + |render(k, xs[k])| <= |Join(xs, render)|
      && Join(xs, render)[off..off + |render(k, xs[k])|] == render(k, xs[k])
  {
    JoinPrefix(xs, k + 1, render);
    JoinSnoc(xs, k, render);
    SliceAfter(Join(xs, render), Join(xs[..k], render), render(k, xs[k]));
  }

  /** Appending nothing changes nothing. */
  lemma AppendEmpty(a: string)
    ensures a + "" == a
  {
  }

  /** The slice of `whole` after a prefix `a + b` of it, at the position of `b`,
      is `b`. */
  lemma SliceAfter(whole: string, a: string, b: string)
    requires |a + b| <= |whole| && whole[..|a + b|] == a + b
    ensures |a| + |b| <= |whole| && whole[|a|..|a| + |b|] == b
  {
    assert whole[|a|..|a| + |b|] == (a + b)[|a|..];
  }

  /** The decimal digit for `d`. */
  function Digit(d: nat): char
    requires d < 10
  {
    "0123456789"[d]
  }

  /** `String(n)` for a natural number, as a template literal prints it. */
  function NatToString(n: nat): (r: string)
    ensures r != []
    ensures forall i :: 0 <= i < |r| ==> '0' <= r[i] <= '9'
  {
    if n < 10 then [Digit(n)] else NatToString(n / 10) + [Digit(n % 10)]
  }
}
