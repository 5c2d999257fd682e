/**
 * Subsequences: `a` is a subsequence of `b` when `b` holds the elements of
 * `a` in the same order, possibly with others in between. This is what a
 * queue that can be emptied keeps of its order.
 */
module Subseq {

  /** `a` can be read off `b` left to right, skipping elements of `b`. */
  predicate IsSubseq<T(==)>(a: seq<T>, b: seq<T>)
    decreases |b|
  {
    a == [] || (b != [] && ((a[0] == b[0] && IsSubseq(a[1..], b[1..])) || IsSubseq(a, b[1..])))
  }

  lemma {:induction false} Reflexive<T>(a: seq<T>)
    ensures IsSubseq(a, a)
    decreases |a|
  {
    if a != [] {
      Reflexive(a[1..]);
    }
  }

  /** A prefix is a subsequence. */
  lemma {:induction false} Prefix<T>(a: seq<T>, b: seq<T>)
    ensures IsSubseq(a, a + b)
    decreases |a|
  {
    if a != [] {
      Prefix(a[1..], b);
      assert (a + b)[1..] == a[1..] + b;
    }
  }

  /** A suffix is a subsequence. */
  lemma {:induction false} Suffix<T>(a: seq<T>, b: seq<T>)
    ensures IsSubseq(b, a + b)
    decreases |a|
  {
    if a == [] {
      assert a + b == b;
      Reflexive(b);
    } else {
      Suffix(a[1..], b);
      assert (a + b)[1..] == a[1..] + b;
    }
  }

  /** The same elements put in front of both keep the relation. */
  lemma {:induction false} PrependBoth<T>(x: seq<T>, a: seq<T>, b: seq<T>)
    requires IsSubseq(a, b)
    ensures IsSubseq(x + a, x + b)
    decreases |x|
  {
    if x == [] {
      assert x + a == a && x + b == b;
    } else {
      PrependBoth(x[1..], a, b);
      assert (x + a)[1..] == x[1..] + a;
      assert (x + b)[1..] == x[1..] + b;
    }
  }

  /** The same elements put behind both keep the relation. */
  lemma {:induction false} AppendBoth<T>(a: seq<T>, b: seq<T>, y: seq<T>)
    requires IsSubseq(a, b)
    ensures IsSubseq(a + y, b + y)
    decreases |b|
  {
    if a == [] {
      assert a + y == y;
      Suffix(b, y);
    } else {
      assert (a + y)[1..] == a[1..] + y;
      assert (b + y)[1..] == b[1..] + y;
      if a[0] == b[0] && IsSubseq(a[1..], b[1..]) {
        AppendBoth(a[1..], b[1..], y);
      } else {
        AppendBoth(a, b[1..], y);
      }
    }
  }

  lemma {:induction false} Transitive<T>(a: seq<T>, b: seq<T>, c: seq<T>)
    requires IsSubseq(a, b) && IsSubseq(b, c)
    ensures IsSubseq(a, c)
    decreases |c|
  {
    if a != [] {
      if b[0] == c[0] && IsSubseq(b[1..], c[1..]) {
        if a[0] == b[0] && IsSubseq(a[1..], b[1..]) {
          Transitive(a[1..], b[1..], c[1..]);
        } else {
          Transitive(a, b[1..], c[1..]);
        }
      } else {
        Transitive(a, b, c[1..]);
      }
    }
  }
}
