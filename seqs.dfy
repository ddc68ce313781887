/** Order-keeping filters and element-wise maps over sequences, with the facts the pipeline relies on. */
module Seqs {
  import opened Wrappers

  /**
   * A column conversion that raises on a bad cell: `parse` applied to every
   * element in order, and the first element it rejects fails the whole column.
   */
  method ParseAll<T, U>(xs: seq<T>, parse: T --> Option<U>) returns (r: Option<seq<U>>)
    requires forall i :: 0 <= i < |xs| ==> parse.requires(xs[i])
    ensures r.Some? <==> forall i :: 0 <= i < |xs| ==> parse(xs[i]).Some?
    ensures r.Some? ==> |r.value| == |xs| && forall i :: 0 <= i < |xs| ==> parse(xs[i]) == Some(r.value[i])
  {
    var out: seq<U> := [];
    for i := 0 to |xs|
      invariant |out| == i
      invariant forall k :: 0 <= k < i ==> parse(xs[k]) == Some(out[k])
    {
      var v := parse(xs[i]);
      if v.None? {
        return None;
      }
      out := out + [v.value];
    }
    return Some(out);
  }

  /** The elements of `s` that satisfy `keep`, in their original order (a boolean-mask row selection). */
  function Filter<T>(s: seq<T>, keep: T -> bool): (r: seq<T>)
    ensures |r| <= |s|
    ensures forall i :: 0 <= i < |r| ==> r[i] in s && keep(r[i])
    ensures forall i :: 0 <= i < |s| && keep(s[i]) ==> s[i] in r
  {
    if s == [] then [] else (if keep(s[0]) then [s[0]] else []) + Filter(s[1..], keep)
  }

  /** Filtering commutes with concatenation: nothing is reordered across the cut. */
  lemma {:induction false} FilterAppend<T>(a: seq<T>, b: seq<T>, keep: T -> bool)
    ensures Filter(a + b, keep) == Filter(a, keep) + Filter(b, keep)
  {
    if a == [] {
      assert a + b == b;
    } else {
      assert (a + b)[1..] == a[1..] + b;
      FilterAppend(a[1..], b, keep);
    }
  }

  /** Each kept value occurs as often as in the input; each dropped value does not occur. */
  lemma {:induction false} FilterMultiplicity<T>(s: seq<T>, keep: T -> bool, x: T)
    ensures multiset(Filter(s, keep))[x] == if keep(x) then multiset(s)[x] else 0
  {
    if s != [] {
      FilterMultiplicity(s[1..], keep, x);
      assert s == [s[0]] + s[1..];
    }
  }

  /** Nothing is dropped when every element is kept. */
  lemma {:induction false} FilterKeepsAll<T>(s: seq<T>, keep: T -> bool)
    requires forall i :: 0 <= i < |s| ==> keep(s[i])
    ensures Filter(s, keep) == s
  {
    if s != [] {
      FilterKeepsAll(s[1..], keep);
    }
  }

  /** A property holds of every element of `a` exactly when it holds of every element of a permutation of `a`. */
  lemma AllOfPermutation<T>(a: seq<T>, b: seq<T>, p: T -> bool)
    requires multiset(a) == multiset(b)
    ensures (forall i :: 0 <= i < |a| ==> p(a[i])) <==> (forall j :: 0 <= j < |b| ==> p(b[j]))
  {
    if forall i :: 0 <= i < |a| ==> p(a[i]) {
      forall j | 0 <= j < |b| ensures p(b[j]) {
        assert b[j] in multiset(a);
      }
    }
    if forall j :: 0 <= j < |b| ==> p(b[j]) {
      forall i | 0 <= i < |a| ensures p(a[i]) {
        assert a[i] in multiset(b);
      }
    }
  }

  /** `f` applied to every element, in order. */
  function Map<A, B>(s: seq<A>, f: A --> B): (r: seq<B>)
    requires forall i :: 0 <= i < |s| ==> f.requires(s[i])
    ensures |r| == |s| && forall i :: 0 <= i < |s| ==> r[i] == f(s[i])
  {
    seq(|s|, i requires 0 <= i < |s| => f(s[i]))
  }

  /** Taking out the element at `j` takes one copy of it out of the multiset. */
  lemma MultisetRemoveAt<T>(s: seq<T>, j: int)
    requires 0 <= j < |s|
    ensures multiset(s) == multiset(s[..j] + s[j + 1..]) + multiset{s[j]}
  {
    assert s == s[..j] + [s[j]] + s[j + 1..];
  }

  lemma MultisetCancel<T>(p: multiset<T>, q: multiset<T>, x: T)
    requires p + multiset{x} == q + multiset{x}
    ensures p == q
  {
    forall y ensures p[y] == q[y] {
      assert (p + multiset{x})[y] == (q + multiset{x})[y];
    }
  }

  lemma MapRemoveAt<A, B>(s: seq<A>, j: int, f: A --> B)
    requires 0 <= j < |s|
    requires forall i :: 0 <= i < |s| ==> f.requires(s[i])
    ensures multiset(Map(s, f)) == multiset(Map(s[..j] + s[j + 1..], f)) + multiset{f(s[j])}
  {
    var m := Map(s, f);
    MultisetRemoveAt(m, j);
    assert m[..j] + m[j + 1..] == Map(s[..j] + s[j + 1..], f);
  }

  /** Takes the first element of `a` out of its permutation `b`: what is left of each is again a permutation. */
  lemma PermutationRemoveFirst<T>(a: seq<T>, b: seq<T>) returns (j: int)
    requires multiset(a) == multiset(b) && a != []
    ensures 0 <= j < |b| && b[j] == a[0]
    ensures multiset(a[1..]) == multiset(b[..j] + b[j + 1..])
  {
    assert a[0] in multiset(b);
    j :| 0 <= j < |b| && b[j] == a[0];
    var rest := b[..j] + b[j + 1..];
    MultisetRemoveAt(b, j);
    MultisetRemoveAt(a, 0);
    assert a[..0] + a[1..] == a[1..];
    MultisetCancel(multiset(a[1..]), multiset(rest), a[0]);
  }

  /** Mapping two permutations of one another gives two permutations of one another. */
  lemma {:induction false} MapPermutation<A, B>(a: seq<A>, b: seq<A>, f: A --> B)
    requires multiset(a) == multiset(b)
    requires forall i :: 0 <= i < |a| ==> f.requires(a[i])
    requires forall i :: 0 <= i < |b| ==> f.requires(b[i])
    ensures multiset(Map(a, f)) == multiset(Map(b, f))
    decreases |a|
  {
    if a == [] {
      assert |multiset(b)| == 0;
    } else {
      var j := PermutationRemoveFirst(a, b);
      var rest := b[..j] + b[j + 1..];
      forall i | 0 <= i < |rest| ensures f.requires(rest[i]) {
        if i < j { assert rest[i] == b[i]; } else { assert rest[i] == b[i + 1]; }
      }
      MapPermutation(a[1..], rest, f);
      assert a[..0] + a[1..] == a[1..];
      MapRemoveAt(a, 0, f);
      MapRemoveAt(b, j, f);
    }
  }
}
