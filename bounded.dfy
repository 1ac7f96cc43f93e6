/** The two capped-history disciplines of the repository.
    Newest-first (the JavaScript handler): `list.unshift(e)`, then `list.pop()`
    when the list is longer than the cap.
    Oldest-first (the Python server): `logs.append(e)`, then `logs.pop(0)`
    when the list is longer than the cap. */
module Bounded {

  /** The first `n` elements of `s`, or all of `s` when it is shorter. */
  function Take<T>(s: seq<T>, n: nat): (r: seq<T>)
    ensures |r| == if |s| <= n then |s| else n
    ensures r <= s
  {
    if |s| <= n then s else s[..n]
  }

  /** The last `n` elements of `s`, or all of `s` when it is shorter. */
  function Last<T>(s: seq<T>, n: nat): (r: seq<T>)
    ensures |r| == if |s| <= n then |s| else n
    ensures r == s[|s| - |r|..]
  {
    if |s| <= n then s else s[|s| - n..]
  }

  function Reverse<T>(s: seq<T>): (r: seq<T>)
    ensures |r| == |s|
  {
    if s == [] then [] else Reverse(s[1..]) + [s[0]]
  }

  // ---------------------------------------------------------------------
  // Newest-first: unshift, then pop the oldest when over the cap.

  /** One insertion into a newest-first history capped at `cap`: the new
      element comes first, the old list follows with at most its last
      (oldest) element dropped, and that element is dropped exactly when
      keeping it would exceed the cap. */
  function PrependCapped<T>(l: seq<T>, e: T, cap: nat): (r: seq<T>)
    requires cap > 0
    ensures |r| >= 1 && r[0] == e
    ensures r[1..] <= l
    ensures |r| == if |l| < cap then |l| + 1 else |l|
    ensures |l| <= cap ==> |r| <= cap
  {
    var grown := [e] + l;
    if |grown| > cap then grown[..|grown| - 1] else grown
  }

  /** Within the cap, one insertion keeps the newest `cap` elements. */
  lemma PrependCappedTakes<T>(l: seq<T>, e: T, cap: nat)
    requires 0 < cap && |l| <= cap
    ensures PrependCapped(l, e, cap) == Take([e] + l, cap)
  {
  }

  /** Inserting the elements of `xs` one after the other, `xs[0]` first. */
  function Feed<T>(l: seq<T>, xs: seq<T>, cap: nat): (r: seq<T>)
    requires cap > 0
    ensures |l| <= cap ==> |r| <= cap
    decreases |xs|
  {
    if xs == [] then l else Feed(PrependCapped(l, xs[0], cap), xs[1..], cap)
  }

  lemma TakeOfTake<T>(a: seq<T>, b: seq<T>, n: nat)
    ensures Take(a + Take(b, n), n) == Take(a + b, n)
  {
    if |b| > n {
      if |a| >= n {
        assert (a + Take(b, n))[..n] == a[..n] == (a + b)[..n];
      } else {
        assert (a + Take(b, n))[..n] == a + b[..n - |a|] == (a + b)[..n];
      }
    }
  }

  /** A history fed from within its cap holds the newest `cap` elements of
      everything it has seen, newest first. */
  lemma {:induction false} FeedKeepsNewest<T>(l: seq<T>, xs: seq<T>, cap: nat)
    requires 0 < cap && |l| <= cap
    ensures Feed(l, xs, cap) == Take(Reverse(xs) + l, cap)
    decreases |xs|
  {
    if xs != [] {
      var x, rest := xs[0], xs[1..];
      var l' := PrependCapped(l, x, cap);
      PrependCappedTakes(l, x, cap);
      FeedKeepsNewest(l', rest, cap);
      calc {
        Feed(l, xs, cap);
        Feed(l', rest, cap);
        Take(Reverse(rest) + Take([x] + l, cap), cap);
        { TakeOfTake(Reverse(rest), [x] + l, cap); }
        Take(Reverse(rest) + ([x] + l), cap);
        { assert Reverse(rest) + ([x] + l) == Reverse(xs) + l; }
        Take(Reverse(xs) + l, cap);
      }
    }
  }

  /** One element more than the cap, fed into an empty history: the very
      first element is the only one evicted. */
  lemma OneOverCapEvictsFirst<T>(xs: seq<T>, cap: nat)
    requires 0 < cap && |xs| == cap + 1
    ensures Feed([], xs, cap) == Reverse(xs[1..])
  {
    FeedKeepsNewest([], xs, cap);
    assert Reverse(xs) == Reverse(xs[1..]) + [xs[0]];
    assert Reverse(xs) + [] == Reverse(xs);
    assert Take(Reverse(xs), cap) == Reverse(xs)[..cap];
  }

  // ---------------------------------------------------------------------
  // Oldest-first: append, then drop index 0 when over the cap.

  /** One insertion into an oldest-first log capped at `cap`: the new element
      is last, what stays is a suffix of the old log followed by it, and only
      the entry at index 0 can be dropped, exactly when keeping it would
      exceed the cap. */
  function AppendCapped<T>(l: seq<T>, e: T, cap: nat): (r: seq<T>)
    requires cap > 0
    ensures |r| >= 1 && r[|r| - 1] == e
    ensures |r| == if |l| < cap then |l| + 1 else |l|
    ensures r == if |l| < cap then l + [e] else l[1..] + [e]
    ensures |l| <= cap ==> |r| <= cap
  {
    var grown := l + [e];
    if |grown| > cap then grown[1..] else grown
  }

  /** Appending the elements of `xs` one after the other, `xs[0]` first. */
  function FeedLog<T>(l: seq<T>, xs: seq<T>, cap: nat): (r: seq<T>)
    requires cap > 0
    ensures |l| <= cap ==> |r| <= cap
    decreases |xs|
  {
    if xs == [] then l else FeedLog(AppendCapped(l, xs[0], cap), xs[1..], cap)
  }

  /** A log fed from within its cap holds the last `cap` entries of
      everything it has seen, oldest first, so survivors keep their order. */
  lemma {:induction false} FeedLogKeepsLatest<T>(l: seq<T>, xs: seq<T>, cap: nat)
    requires 0 < cap && |l| <= cap
    ensures FeedLog(l, xs, cap) == Last(l + xs, cap)
    decreases |xs|
  {
    if xs == [] {
      assert l + xs == l;
    } else {
      var l' := AppendCapped(l, xs[0], cap);
      assert l' == Last(l + [xs[0]], cap);
      FeedLogKeepsLatest(l', xs[1..], cap);
      assert (l + [xs[0]]) + xs[1..] == l + xs;
      LastSuffixes(l + [xs[0]], xs[1..], cap);
    }
  }

  /** Keeping the last `n` before appending more changes nothing about the
      last `n` afterwards. */
  lemma LastSuffixes<T>(a: seq<T>, b: seq<T>, n: nat)
    ensures Last(Last(a, n) + b, n) == Last(a + b, n)
  {
    if |a| > n {
      var k := |a| - n;
      var c := a[k..] + b;
      assert Last(a, n) == a[k..];
      assert (a + b)[k..] == c;
      assert |c| >= n;
      var j := |c| - n;
      assert Last(c, n) == c[j..];
      assert Last(a + b, n) == (a + b)[k + j..];
      assert (a + b)[k + j..] == c[j..];
    }
  }
}
