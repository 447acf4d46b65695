// Sequence operations shared by the listings: filtering, Python's slices
// and SQL's LIMIT and OFFSET.
module Lists {

  /** `[x for x in s if p(x)]`. */
  function Filter<T>(s: seq<T>, p: T -> bool): (r: seq<T>)
    ensures |r| <= |s|
    ensures forall i | 0 <= i < |r| :: r[i] in s && p(r[i])
    ensures forall i | 0 <= i < |s| && p(s[i]) :: s[i] in r
    ensures IsSubsequence(r, s)
  {
    if s == [] then []
    else
      var rest := Filter(s[1..], p);
      SubsequenceOfTail(rest, s);
      if p(s[0]) then [s[0]] + rest else rest
  }

  /** Filtering keeps everything when every element passes. */
  lemma {:induction false} FilterAllKept<T>(s: seq<T>, p: T -> bool)
    requires forall i | 0 <= i < |s| :: p(s[i])
    ensures Filter(s, p) == s
    decreases |s|
  {
    if s != [] {
      FilterAllKept(s[1..], p);
      assert [s[0]] + s[1..] == s;
    }
  }

  /** Filtering distributes over concatenation. */
  lemma {:induction false} FilterAppend<T>(a: seq<T>, b: seq<T>, p: T -> bool)
    ensures Filter(a + b, p) == Filter(a, p) + Filter(b, p)
    decreases |a|
  {
    if a != [] {
      assert (a + b)[1..] == a[1..] + b;
      FilterAppend(a[1..], b, p);
    } else {
      assert a + b == b;
    }
  }

  /** Filtering one more element of a prefix adds that element if it passes. */
  lemma {:induction false} FilterSnoc<T>(s: seq<T>, i: nat, p: T -> bool)
    requires i < |s|
    ensures Filter(s[..i + 1], p) == Filter(s[..i], p) + (if p(s[i]) then [s[i]] else [])
  {
    assert s[..i + 1] == s[..i] + [s[i]];
    FilterAppend(s[..i], [s[i]], p);
  }

  /** `a` is `b` with some elements left out, the rest in order. */
  ghost predicate IsSubsequence<T>(a: seq<T>, b: seq<T>)
    decreases |b|
  {
    if a == [] then true
    else if b == [] then false
    else if a[0] == b[0] then IsSubsequence(a[1..], b[1..])
    else IsSubsequence(a, b[1..])
  }

  lemma {:induction false} SubsequenceOfTail<T>(a: seq<T>, b: seq<T>)
    requires b != [] && IsSubsequence(a, b[1..])
    ensures IsSubsequence(a, b) && IsSubsequence([b[0]] + a, b)
  {
    ExtendSubsequence(a, b);
    assert ([b[0]] + a)[1..] == a;
  }

  /** A subsequence of the tail is a subsequence of the whole. */
  lemma {:induction false} ExtendSubsequence<T>(a: seq<T>, b: seq<T>)
    requires b != [] && IsSubsequence(a, b[1..])
    ensures IsSubsequence(a, b)
    decreases |b|, 0
  {
    if a != [] && a[0] == b[0] {
      DropHeadSubsequence(a, b[1..]);
    }
  }

  /** Dropping the first element keeps a subsequence a subsequence. */
  lemma {:induction false} DropHeadSubsequence<T>(a: seq<T>, b: seq<T>)
    requires a != [] && IsSubsequence(a, b)
    ensures IsSubsequence(a[1..], b)
    decreases |b|, 1
  {
    if a[0] == b[0] {
      if a[1..] != [] {
        ExtendSubsequence(a[1..], b);
      }
    } else {
      DropHeadSubsequence(a, b[1..]);
      ExtendSubsequence(a[1..], b);
    }
  }

  lemma {:induction false} PrefixIsSubsequence<T>(s: seq<T>, n: nat)
    requires n <= |s|
    ensures IsSubsequence(s[..n], s)
    decreases n
  {
    if n > 0 {
      PrefixIsSubsequence(s[1..], n - 1);
      assert s[1..][..n - 1] == s[..n][1..];
    }
  }

  lemma {:induction false} SuffixIsSubsequence<T>(s: seq<T>, n: nat)
    requires n <= |s|
    ensures IsSubsequence(s[n..], s)
    decreases n
  {
    if n > 0 {
      SuffixIsSubsequence(s[1..], n - 1);
      assert s[1..][n - 1..] == s[n..];
      SubsequenceOfTail(s[n..], s);
    } else {
      assert s[n..] == s;
      SelfSubsequence(s);
    }
  }

  lemma {:induction false} SelfSubsequence<T>(s: seq<T>)
    ensures IsSubsequence(s, s)
    decreases |s|
  {
    if s != [] {
      SelfSubsequence(s[1..]);
    }
  }

  lemma {:induction false} SubsequenceTransitive<T>(a: seq<T>, b: seq<T>, c: seq<T>)
    requires IsSubsequence(a, b) && IsSubsequence(b, c)
    ensures IsSubsequence(a, c)
    decreases |c|
  {
    if a != [] {
      assert b != [] && c != [];
      if b[0] == c[0] {
        if a[0] == b[0] {
          SubsequenceTransitive(a[1..], b[1..], c[1..]);
        } else {
          SubsequenceTransitive(a, b[1..], c[1..]);
        }
      } else {
        SubsequenceTransitive(a, b, c[1..]);
        ExtendSubsequence(a, c);
      }
    }
  }

  /** Python's `s[:n]` for any integer `n`: a negative `n` counts from the end. */
  function SlicePrefix<T>(s: seq<T>, n: int): (r: seq<T>)
    ensures IsSubsequence(r, s) && |r| <= |s|
    ensures n >= 0 ==> |r| == if n < |s| then n else |s|
    ensures r == s[..|r|]
  {
    var k := if n >= 0 then (if n < |s| then n else |s|) else (if -n < |s| then |s| + n else 0);
    PrefixIsSubsequence(s, k);
    s[..k]
  }

  /** Python's `s[n:]` for any integer `n`: a negative `n` counts from the end. */
  function SliceSuffix<T>(s: seq<T>, n: int): (r: seq<T>)
    ensures IsSubsequence(r, s) && |r| <= |s|
    ensures n >= 0 ==> |r| == if n < |s| then |s| - n else 0
    ensures r == s[|s| - |r|..]
  {
    var k := if n >= 0 then (if n < |s| then n else |s|) else (if -n < |s| then |s| + n else 0);
    SuffixIsSubsequence(s, k);
    s[k..]
  }

  /** SQL `LIMIT n`: a negative limit sets no bound. */
  function SqlLimit<T>(s: seq<T>, n: int): (r: seq<T>)
    ensures |r| <= |s| && (n >= 0 ==> |r| <= n)
    ensures n < 0 ==> r == s
    ensures r == s[..|r|]
  {
    if n < 0 || n >= |s| then s else s[..n]
  }

  /** SQL `OFFSET n`: a negative offset skips nothing. */
  function SqlOffset<T>(s: seq<T>, n: int): (r: seq<T>)
    ensures |r| <= |s| && (n <= 0 ==> r == s)
    ensures n >= 0 ==> |r| == if n < |s| then |s| - n else 0
    ensures r == s[|s| - |r|..]
  {
    if n <= 0 then s else if n >= |s| then [] else s[n..]
  }

  /** `LIMIT m OFFSET n` is a window of consecutive elements. */
  lemma {:induction false} LimitOffsetWindow<T>(s: seq<T>, n: int, m: int)
    ensures var w, lo := SqlLimit(SqlOffset(s, n), m), |s| - |SqlOffset(s, n)|;
      0 <= lo && lo + |w| <= |s| && w == s[lo..lo + |w|]
  {
    var off := SqlOffset(s, n);
    var w, lo := SqlLimit(off, m), |s| - |off|;
    assert off == s[lo..];
    assert w == off[..|w|];
  }

  lemma {:induction false} WholeWindow<T>(s: seq<T>)
    ensures s == s[0..0 + |s|]
  {
  }
}
