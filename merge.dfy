/**
 * How the scraper merges results: `list.extend` over per-page (or per-category)
 * lists, and the comprehension that drops `None` detail results. Both are
 * defined the way the source builds them, by appending one element at a time.
 */
module Merge {
  import opened Wrappers

  /** The concatenation of `xss` in order, as repeated `extend` builds it. */
  function Flatten<T>(xss: seq<seq<T>>): seq<T>
  {
    if xss == [] then [] else Flatten(xss[..|xss| - 1]) + xss[|xss| - 1]
  }

  function SumLengths<T>(xss: seq<seq<T>>): nat
  {
    if xss == [] then 0 else SumLengths(xss[..|xss| - 1]) + |xss[|xss| - 1]|
  }

  lemma {:induction false} FlattenAppend<T>(a: seq<seq<T>>, b: seq<seq<T>>)
    ensures Flatten(a + b) == Flatten(a) + Flatten(b)
    decreases |b|
  {
    if b != [] {
      var b' := b[..|b| - 1];
      assert (a + b)[..|a + b| - 1] == a + b';
      FlattenAppend(a, b');
    } else {
      assert a + b == a;
    }
  }

  /** One more `extend`: a list holding `start` and then the first `c` parts, extended by part `c`, holds `start` and the first `c + 1` parts. */
  lemma ExtendStep<T>(start: seq<T>, acc: seq<T>, xss: seq<seq<T>>, c: nat)
    requires c < |xss|
    requires acc == start + Flatten(xss[..c])
    ensures acc + xss[c] == start + Flatten(xss[..c + 1])
  {
    assert xss[..c + 1][..c] == xss[..c];
  }

  /** One more element gathered: the first `k` results followed by result `k` are the first `k + 1` results. */
  lemma GatherStep<T>(acc: seq<T>, xs: seq<T>, k: nat, x: T)
    requires k < |xs| && x == xs[k]
    requires acc == xs[..k]
    ensures acc + [x] == xs[..k + 1]
  {
  }

  /** Nothing is lost or duplicated: the merged list is as long as all parts together. */
  lemma {:induction false} FlattenLength<T>(xss: seq<seq<T>>)
    ensures |Flatten(xss)| == SumLengths(xss)
  {
    if xss != [] {
      FlattenLength(xss[..|xss| - 1]);
    }
  }

  /**
   * Order is kept: element `j` of part `p` sits after every element of the
   * parts before it and after the first `j` elements of its own part.
   */
  lemma FlattenAt<T>(xss: seq<seq<T>>, p: nat, j: nat)
    requires p < |xss| && j < |xss[p]|
    ensures SumLengths(xss[..p]) + j < |Flatten(xss)|
    ensures Flatten(xss)[SumLengths(xss[..p]) + j] == xss[p][j]
  {
    var before, rest := xss[..p], xss[p + 1..];
    assert xss == before + [xss[p]] + rest;
    FlattenAppend(before + [xss[p]], rest);
    FlattenAppend(before, [xss[p]]);
    assert Flatten([xss[p]]) == xss[p] by {
      assert [xss[p]][..0] == [];
    }
    FlattenLength(before);
  }

  /** An element is in the merged list exactly when it is in one of the parts. */
  lemma {:induction false} FlattenMembership<T>(xss: seq<seq<T>>, x: T)
    ensures x in Flatten(xss) <==> exists p :: 0 <= p < |xss| && x in xss[p]
  {
    if xss != [] {
      var init := xss[..|xss| - 1];
      FlattenMembership(init, x);
      assert forall p :: 0 <= p < |init| ==> init[p] == xss[p];
    }
  }

  /** `[d for d in xs if d is not None]`, as the values. */
  function Present<T>(xs: seq<Option<T>>): seq<T>
  {
    if xs == [] then []
    else Present(xs[..|xs| - 1]) + (if xs[|xs| - 1].Some? then [xs[|xs| - 1].value] else [])
  }

  function CountNone<T>(xs: seq<Option<T>>): nat
  {
    if xs == [] then 0 else CountNone(xs[..|xs| - 1]) + (if xs[|xs| - 1].None? then 1 else 0)
  }

  /** If `k` of `n` results are None, `n - k` remain. */
  lemma {:induction false} PresentLength<T>(xs: seq<Option<T>>)
    ensures CountNone(xs) <= |xs|
    ensures |Present(xs)| == |xs| - CountNone(xs)
  {
    if xs != [] {
      PresentLength(xs[..|xs| - 1]);
    }
  }

  /** Dropping None results keeps the order of what remains. */
  lemma {:induction false} PresentAppend<T>(a: seq<Option<T>>, b: seq<Option<T>>)
    ensures Present(a + b) == Present(a) + Present(b)
    decreases |b|
  {
    if b != [] {
      var b' := b[..|b| - 1];
      assert (a + b)[..|a + b| - 1] == a + b';
      PresentAppend(a, b');
    } else {
      assert a + b == a;
    }
  }

  /** A value survives exactly when some result carried it. */
  lemma {:induction false} PresentMembership<T>(xs: seq<Option<T>>, v: T)
    ensures v in Present(xs) <==> Some(v) in xs
  {
    if xs != [] {
      var init := xs[..|xs| - 1];
      PresentMembership(init, v);
      assert xs == init + [xs[|xs| - 1]];
    }
  }
}
