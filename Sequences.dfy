/**
  Sequence utilities used by the path collection: the elements of a list,
  duplicate-freedom, filtering, and the order-preserving de-duplication that
  turns the collected candidate paths into the list written to the editor
  settings.
*/
module Sequences {

  /** The set of elements of a list (Python's `set(xs)`). */
  function Elems<T>(s: seq<T>): set<T> {
    set x | x in s
  }

  lemma ElemsEmpty<T>(s: seq<T>)
    ensures Elems(s) == {} <==> s == []
  {
    if s != [] {
      assert s[0] in Elems(s);
    }
  }

  predicate NoDuplicates<T(==)>(s: seq<T>) {
    forall i, j :: 0 <= i < j < |s| ==> s[i] != s[j]
  }

  /** The elements of `xs` that satisfy `keep`, in their original order. */
  function Filter<T>(xs: seq<T>, keep: T -> bool): seq<T> {
    if xs == [] then []
    else
      var init := Filter(xs[..|xs| - 1], keep);
      var last := xs[|xs| - 1];
      if keep(last) then init + [last] else init
  }

  /** `Filter` keeps exactly the elements that satisfy the predicate. */
  lemma {:induction false} FilterMembers<T>(xs: seq<T>, keep: T -> bool)
    ensures |Filter(xs, keep)| <= |xs|
    ensures forall k :: 0 <= k < |Filter(xs, keep)| ==>
              Filter(xs, keep)[k] in xs && keep(Filter(xs, keep)[k])
    ensures forall k :: 0 <= k < |xs| && keep(xs[k]) ==> xs[k] in Filter(xs, keep)
  {
    if xs != [] {
      var init := xs[..|xs| - 1];
      FilterMembers(init, keep);
      assert xs == init + [xs[|xs| - 1]];
    }
  }

  /** Index of the first occurrence of `x` in `xs`. */
  function FirstIndex<T(==)>(xs: seq<T>, x: T): (i: nat)
    requires x in xs
    ensures i < |xs| && xs[i] == x
    ensures forall j :: 0 <= j < i ==> xs[j] != x
  {
    if xs[0] == x then 0 else 1 + FirstIndex(xs[1..], x)
  }

  /**
    Order-preserving de-duplication: each element is kept at its first
    occurrence, later occurrences are dropped.  Defined element by element
    from the left, as the `seen`/`unique_paths` loop runs.
  */
  function Dedup<T(==)>(xs: seq<T>): (r: seq<T>)
    ensures NoDuplicates(r)
    ensures Elems(r) == Elems(xs)
    ensures |r| <= |xs|
  {
    if xs == [] then []
    else
      var init := xs[..|xs| - 1];
      var last := xs[|xs| - 1];
      var r := Dedup(init);
      assert xs == init + [last];
      assert Elems(xs) == Elems(init) + {last};
      if last in r then r
      else
        assert Elems(r + [last]) == Elems(r) + {last};
        r + [last]
  }

  /** The `seen`-set loop of the source, proved to compute `Dedup`. */
  method DedupInOrder(xs: seq<string>) returns (unique: seq<string>)
    ensures unique == Dedup(xs)
    ensures NoDuplicates(unique) && Elems(unique) == Elems(xs)
  {
    var seen: set<string> := {};
    unique := [];
    for i := 0 to |xs|
      invariant unique == Dedup(xs[..i])
      invariant seen == Elems(unique)
    {
      var path := xs[i];
      assert xs[..i + 1][..i] == xs[..i];
      if path !in seen {
        seen := seen + {path};
        unique := unique + [path];
      }
    }
    assert xs[..|xs|] == xs;
  }

  lemma FirstIndexOfPrefix<T>(xs: seq<T>, x: T, y: T)
    requires y in xs
    ensures y in xs + [x] && FirstIndex(xs + [x], y) == FirstIndex(xs, y)
  {
    var i := FirstIndex(xs, y);
    var k := FirstIndex(xs + [x], y);
    assert (xs + [x])[i] == y;
    assert k <= i;
    assert xs[k] == y;
  }

  /**
    De-duplication keeps first occurrences in input order: an element that
    comes earlier in the output first occurs earlier in the input.
  */
  lemma {:induction false} DedupFollowsFirstOccurrences<T>(xs: seq<T>, i: nat, j: nat)
    requires i < j < |Dedup(xs)|
    ensures Dedup(xs)[i] in xs && Dedup(xs)[j] in xs
    ensures FirstIndex(xs, Dedup(xs)[i]) < FirstIndex(xs, Dedup(xs)[j])
  {
    var r := Dedup(xs);
    assert r[i] in Elems(r) && r[j] in Elems(r);
    var init := xs[..|xs| - 1];
    var last := xs[|xs| - 1];
    assert xs == init + [last];
    var r0 := Dedup(init);
    if j < |r0| {
      DedupFollowsFirstOccurrences(init, i, j);
      assert r[i] == r0[i] && r[j] == r0[j];
      FirstIndexOfPrefix(init, last, r0[i]);
      FirstIndexOfPrefix(init, last, r0[j]);
    } else {
      // r[j] is the newly kept last element, absent from `init`
      assert r == r0 + [last] && r[j] == last;
      assert last !in Elems(r0);
      assert last !in init;
      assert r[i] == r0[i] && r0[i] in Elems(r0);
      FirstIndexOfPrefix(init, last, r0[i]);
      assert FirstIndex(xs, last) == |init|;
    }
  }

  /**
    The same property stated on elements: if `a` first occurs before `b` in
    the input, `a` comes before `b` in the de-duplicated output.
  */
  lemma DedupPreservesRelativeOrder<T>(xs: seq<T>, a: T, b: T)
    requires a in xs && b in xs
    requires FirstIndex(xs, a) < FirstIndex(xs, b)
    ensures a in Dedup(xs) && b in Dedup(xs)
    ensures FirstIndex(Dedup(xs), a) < FirstIndex(Dedup(xs), b)
  {
    var r := Dedup(xs);
    assert a in Elems(xs) && b in Elems(xs);
    var ia := FirstIndex(r, a);
    var ib := FirstIndex(r, b);
    if ib < ia {
      DedupFollowsFirstOccurrences(xs, ib, ia);
    }
  }

  /**
    De-duplicating a concatenation keeps the de-duplicated first part as a
    prefix; whatever follows comes from the second part and is absent from
    the first.
  */
  lemma {:induction false} DedupAppend<T>(a: seq<T>, b: seq<T>)
    ensures |Dedup(a)| <= |Dedup(a + b)|
    ensures Dedup(a + b)[..|Dedup(a)|] == Dedup(a)
    ensures forall k :: |Dedup(a)| <= k < |Dedup(a + b)| ==>
              Dedup(a + b)[k] in b && Dedup(a + b)[k] !in a
  {
    if b == [] {
      assert a + b == a;
    } else {
      var b0 := b[..|b| - 1];
      var last := b[|b| - 1];
      assert a + b == (a + b0) + [last];
      DedupAppend(a, b0);
      var r0 := Dedup(a + b0);
      var r := Dedup(a + b);
      assert (a + b)[..|a + b| - 1] == a + b0;
      forall k | |Dedup(a)| <= k < |r|
        ensures r[k] in b && r[k] !in a
      {
        if k < |r0| {
          assert r[k] == r0[k];
        } else {
          assert r[k] == last;
          assert last !in Elems(r0);
          assert last !in Elems(a + b0);
        }
      }
    }
  }

  /** A list with no duplicates is left as it is. */
  lemma {:induction false} DedupOfDistinct<T>(xs: seq<T>)
    requires NoDuplicates(xs)
    ensures Dedup(xs) == xs
  {
    if xs != [] {
      var init := xs[..|xs| - 1];
      var last := xs[|xs| - 1];
      assert xs == init + [last];
      DedupOfDistinct(init);
      assert last !in init;
      assert last !in Elems(Dedup(init));
    }
  }

  /** De-duplication is idempotent. */
  lemma DedupIdempotent<T>(xs: seq<T>)
    ensures Dedup(Dedup(xs)) == Dedup(xs)
  {
    DedupOfDistinct(Dedup(xs));
  }
}
