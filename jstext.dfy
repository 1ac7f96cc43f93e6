/** The JavaScript string operations the message handler relies on:
    `includes`, `startsWith` (Dafny's prefix test `p <= s`) and `split`. */
module JsText {

  /** `s.includes(sub)`: `sub` occurs in `s` at some position. */
  predicate Includes(s: string, sub: string)
    decreases |s|
  {
    sub <= s || (s != [] && Includes(s[1..], sub))
  }

  /** An occurrence after any prefix `a` is found by `Includes`. */
  lemma {:induction false} IncludesInfix(a: string, sub: string, b: string)
    ensures Includes(a + sub + b, sub)
    decreases |a|
  {
    if a == [] {
      assert a + sub + b == sub + b;
    } else {
      assert (a + sub + b)[1..] == a[1..] + sub + b;
      IncludesInfix(a[1..], sub, b);
    }
  }

  /** Every witness of `Includes` is an occurrence of `sub`. */
  lemma {:induction false} IncludesHasOccurrence(s: string, sub: string)
    requires Includes(s, sub)
    ensures exists a, b :: s == a + sub + b
    decreases |s|
  {
    if sub <= s {
      assert s == [] + sub + s[|sub|..];
    } else {
      IncludesHasOccurrence(s[1..], sub);
      var a, b :| s[1..] == a + sub + b;
      assert s == [s[0]] + a + sub + b;
    }
  }

  /** `s.split(d)` for a one-character separator: the pieces between
      consecutive separators, empty ones included, in order; never empty. */
  function Split(s: string, d: char): (parts: seq<string>)
    ensures |parts| >= 1
    ensures forall k :: 0 <= k < |parts| ==> d !in parts[k]
    decreases |s|
  {
    if s == [] then [""]
    else
      var rest := Split(s[1..], d);
      if s[0] == d then [""] + rest
      else [[s[0]] + rest[0]] + rest[1..]
  }

  /** `parts.join(d)`, the inverse of `Split`. */
  function Join(parts: seq<string>, d: char): string
    requires |parts| >= 1
  {
    if |parts| == 1 then parts[0] else parts[0] + [d] + Join(parts[1..], d)
  }

  /** Joining the pieces of a split gives back the original string. */
  lemma {:induction false} JoinSplit(s: string, d: char)
    ensures Join(Split(s, d), d) == s
    decreases |s|
  {
    if s != [] {
      JoinSplit(s[1..], d);
      var rest := Split(s[1..], d);
      if s[0] != d {
        if |rest| == 1 {
          assert Split(s, d) == [[s[0]] + rest[0]];
        } else {
          assert Split(s, d)[1..] == rest[1..];
          assert Join(rest, d) == rest[0] + [d] + Join(rest[1..], d);
        }
      }
    }
  }

  /** A string without the separator splits into itself. */
  lemma {:induction false} SplitPlain(a: string, d: char)
    requires d !in a
    ensures Split(a, d) == [a]
    decreases |a|
  {
    if a != [] {
      SplitPlain(a[1..], d);
      assert a == [a[0]] + a[1..];
    }
  }

  /** A leading piece without the separator comes off as the first part. */
  lemma {:induction false} SplitFront(a: string, d: char, b: string)
    requires d !in a
    ensures Split(a + [d] + b, d) == [a] + Split(b, d)
    decreases |a|
  {
    if a == [] {
      assert (a + [d] + b)[1..] == b;
    } else {
      assert (a + [d] + b)[1..] == a[1..] + [d] + b;
      SplitFront(a[1..], d, b);
      var rest := Split(a[1..] + [d] + b, d);
      assert rest[0] == a[1..] && rest[1..] == Split(b, d);
      assert a == [a[0]] + a[1..];
    }
  }

  /** Splitting undoes joining pieces that do not contain the separator. */
  lemma {:induction false} SplitJoin(parts: seq<string>, d: char)
    requires |parts| >= 1
    requires forall k :: 0 <= k < |parts| ==> d !in parts[k]
    ensures Split(Join(parts, d), d) == parts
    decreases |parts|
  {
    if |parts| == 1 {
      SplitPlain(parts[0], d);
    } else {
      SplitJoin(parts[1..], d);
      SplitFront(parts[0], d, Join(parts[1..], d));
      assert parts == [parts[0]] + parts[1..];
    }
  }

  /** A JavaScript value that is a string or `undefined`. */
  datatype Segment = Defined(text: string) | Undefined
  {
    /** The property key JavaScript makes of it: `undefined` becomes the
        key "undefined". */
    function Key(): string
    {
      match this
      case Defined(t) => t
      case Undefined => "undefined"
    }
  }

  /** `s.split('/')[2]`: `undefined` when `s` has fewer than three segments,
      otherwise a piece that holds no '/'. */
  function ThirdSegment(s: string): (r: Segment)
    ensures r.Defined? <==> |Split(s, '/')| > 2
    ensures r.Defined? ==> '/' !in r.text
  {
    var parts := Split(s, '/');
    if |parts| > 2 then Defined(parts[2]) else Undefined
  }

  /** A topic of two segments `x/y` has no third one. */
  lemma TwoSegmentsHaveNoThird(x: string, y: string)
    requires '/' !in x && '/' !in y
    ensures ThirdSegment(x + "/" + y) == Undefined
  {
    assert x + "/" + y == x + ['/'] + y;
    SplitFront(x, '/', y);
    SplitPlain(y, '/');
  }

  /** Below a two-segment prefix `x/y/`, the third segment is everything of
      the remainder up to its first '/'. */
  lemma ThirdSegmentBelow(x: string, y: string, rest: string)
    requires '/' !in x && '/' !in y
    ensures ThirdSegment(x + "/" + y + "/" + rest) == Defined(Split(rest, '/')[0])
  {
    var s := x + "/" + y + "/" + rest;
    assert s == x + ['/'] + (y + ['/'] + rest);
    SplitFront(x, '/', y + ['/'] + rest);
    SplitFront(y, '/', rest);
  }

  /** The first piece of a split is the text before the first separator. */
  lemma {:induction false} FirstPieceBeforeSeparator(cat: string, d: char, tail: string)
    requires d !in cat
    ensures Split(cat, d)[0] == cat
    ensures Split(cat + [d] + tail, d)[0] == cat
  {
    SplitPlain(cat, d);
    SplitFront(cat, d, tail);
  }
}
