/** Ordered collections as the program builds them with JavaScript arrays
    and `Set`s: a `Set` keeps its elements in insertion order, so
    `Array.from(new Set(xs))` is `xs` with later duplicates dropped. */
module Collections {
  import Numeric

  predicate NoDup<T(==)>(s: seq<T>) {
    forall i, j :: 0 <= i < j < |s| ==> s[i] != s[j]
  }

  predicate IsPrefix<T(==)>(p: seq<T>, s: seq<T>) {
    |p| <= |s| && s[..|p|] == p
  }

  /** `a` is `s` with some elements left out, the rest in their order. */
  predicate IsSubsequence<T(==)>(a: seq<T>, s: seq<T>)
    decreases |s|
  {
    if a == [] then true
    else if s == [] then false
    else if a[0] == s[0] then IsSubsequence(a[1..], s[1..])
    else IsSubsequence(a, s[1..])
  }

  // ---------------------------------------------------------------------
  // Insertion-ordered sets
  // ---------------------------------------------------------------------

  /** `set.add(x)`, seen through `Array.from(set)`. */
  function Add<T(==)>(s: seq<T>, x: T): seq<T> {
    if x in s then s else s + [x]
  }

  /** `Array.from(new Set(xs))`: elements inserted left to right. */
  function Dedup<T(==)>(xs: seq<T>): seq<T>
    decreases |xs|
  {
    if xs == [] then [] else Add(Dedup(xs[..|xs| - 1]), xs[|xs| - 1])
  }

  /** `[...new Set([...prev, ...added])].slice(0, cap)`. */
  function Merge<T(==)>(prev: seq<T>, added: seq<T>, cap: nat): seq<T> {
    var d := Dedup(prev + added);
    d[..Numeric.Min(cap, |d|)]
  }

  lemma AddProperties<T>(s: seq<T>, x: T)
    ensures NoDup(s) ==> NoDup(Add(s, x))
    ensures IsPrefix(s, Add(s, x))
    ensures forall y :: y in Add(s, x) <==> y in s || y == x
    ensures |Add(s, x)| <= |s| + 1
  {
    assert (s + [x])[..|s|] == s;
  }

  /** Inserting an element already present changes nothing. */
  lemma AddPresent<T>(s: seq<T>, x: T)
    requires x in s
    ensures Add(s, x) == s
  {
  }

  lemma {:induction false} DedupProperties<T>(xs: seq<T>)
    ensures NoDup(Dedup(xs))
    ensures forall y :: y in Dedup(xs) <==> y in xs
    ensures |Dedup(xs)| <= |xs|
    decreases |xs|
  {
    if xs != [] {
      var init := xs[..|xs| - 1];
      DedupProperties(init);
      AddProperties(Dedup(init), xs[|xs| - 1]);
      assert xs == init + [xs[|xs| - 1]];
      forall y
        ensures y in xs <==> y in init || y == xs[|xs| - 1]
      {
        assert y in init + [xs[|xs| - 1]] <==> y in init || y == xs[|xs| - 1];
      }
    }
  }

  /** A sequence without duplicates is its own set. */
  lemma {:induction false} DedupOfNoDup<T>(xs: seq<T>)
    requires NoDup(xs)
    ensures Dedup(xs) == xs
    decreases |xs|
  {
    if xs != [] {
      var init := xs[..|xs| - 1];
      var x := xs[|xs| - 1];
      assert xs == init + [x];
      forall i, j | 0 <= i < j < |init|
        ensures init[i] != init[j]
      {
        assert init[i] == xs[i] && init[j] == xs[j];
      }
      DedupOfNoDup(init);
      forall i | 0 <= i < |init|
        ensures init[i] != x
      {
        assert init[i] == xs[i];
      }
      assert Dedup(xs) == Add(init, x);
    }
  }

  /** Appending more elements keeps the set built so far as a prefix. */
  lemma {:induction false} DedupAppendPrefix<T>(a: seq<T>, b: seq<T>)
    ensures IsPrefix(Dedup(a), Dedup(a + b))
    decreases |b|
  {
    if b == [] {
      assert a + b == a;
    } else {
      var b' := b[..|b| - 1];
      var x := b[|b| - 1];
      assert (a + b)[..|a + b| - 1] == a + b';
      assert (a + b)[|a + b| - 1] == x;
      DedupAppendPrefix(a, b');
      AddProperties(Dedup(a + b'), x);
    }
  }

  /** Once every element of `b` already occurs in `a`, appending `b` changes nothing. */
  lemma {:induction false} DedupAppendPresent<T>(a: seq<T>, b: seq<T>)
    requires forall y :: y in b ==> y in a
    ensures Dedup(a + b) == Dedup(a)
    decreases |b|
  {
    if b == [] {
      assert a + b == a;
    } else {
      var b' := b[..|b| - 1];
      var x := b[|b| - 1];
      assert (a + b)[..|a + b| - 1] == a + b';
      assert (a + b)[|a + b| - 1] == x;
      DedupAppendPresent(a, b');
      DedupProperties(a);
      assert x in b;
      AddPresent(Dedup(a), x);
    }
  }

  /** The tag-list merge: no duplicates, at most `cap` entries; a previous list
      that already had no duplicates and fit under the cap stays as a prefix
      (overflow drops new tags, never earlier ones), and a full one stays as it is. */
  lemma MergeProperties<T>(prev: seq<T>, added: seq<T>, cap: nat)
    ensures NoDup(Merge(prev, added, cap))
    ensures |Merge(prev, added, cap)| <= cap
    ensures forall y :: y in Merge(prev, added, cap) ==> y in prev || y in added
    ensures |Dedup(prev + added)| <= cap ==>
              forall y :: y in prev || y in added ==> y in Merge(prev, added, cap)
    ensures NoDup(prev) && |prev| <= cap ==> IsPrefix(prev, Merge(prev, added, cap))
    ensures NoDup(prev) && |prev| == cap ==> Merge(prev, added, cap) == prev
  {
    MergeNoDup(prev, added, cap);
    forall y | y in Merge(prev, added, cap)
      ensures y in prev || y in added
    {
      MergeMember(prev, added, cap, y);
    }
    MergeUncut(prev, added, cap);
    if NoDup(prev) && |prev| <= cap {
      MergePrefix(prev, added, cap);
    }
  }

  lemma MergeNoDup<T>(prev: seq<T>, added: seq<T>, cap: nat)
    ensures NoDup(Merge(prev, added, cap)) && |Merge(prev, added, cap)| <= cap
  {
    var d := Dedup(prev + added);
    var r := Merge(prev, added, cap);
    DedupProperties(prev + added);
    forall i, j | 0 <= i < j < |r|
      ensures r[i] != r[j]
    {
      assert r[i] == d[i] && r[j] == d[j];
    }
  }

  lemma MergeUncut<T>(prev: seq<T>, added: seq<T>, cap: nat)
    ensures |Dedup(prev + added)| <= cap ==>
              forall y :: y in prev || y in added ==> y in Merge(prev, added, cap)
  {
    var d := Dedup(prev + added);
    DedupProperties(prev + added);
    if |d| <= cap {
      assert Merge(prev, added, cap) == d;
      forall y | y in prev || y in added
        ensures y in d
      {
        assert y in prev + added;
      }
    }
  }

  lemma MergePrefix<T>(prev: seq<T>, added: seq<T>, cap: nat)
    requires NoDup(prev) && |prev| <= cap
    ensures IsPrefix(prev, Merge(prev, added, cap))
  {
    var d := Dedup(prev + added);
    var r := Merge(prev, added, cap);
    DedupAppendPrefix(prev, added);
    DedupOfNoDup(prev);
    assert r[..|prev|] == d[..|prev|];
  }

  lemma MergeMember<T>(prev: seq<T>, added: seq<T>, cap: nat, y: T)
    requires y in Merge(prev, added, cap)
    ensures y in prev || y in added
  {
    var d := Dedup(prev + added);
    assert y in d;
    DedupProperties(prev + added);
    assert y in prev + added;
  }

  /** Merging into a full list leaves it as it is. */
  lemma MergeFull<T>(prev: seq<T>, added: seq<T>, cap: nat)
    requires NoDup(prev) && |prev| == cap
    ensures Merge(prev, added, cap) == prev
  {
    MergeProperties(prev, added, cap);
  }

  // ---------------------------------------------------------------------
  // Filtering one value out
  // ---------------------------------------------------------------------

  /** `s.filter(y => y !== x)`. */
  function Remove<T(==)>(s: seq<T>, x: T): seq<T>
    decreases |s|
  {
    if s == [] then [] else (if s[0] == x then [] else [s[0]]) + Remove(s[1..], x)
  }

  /** Every occurrence of `x` goes, every other element stays as often as it
      was there, and the order of the rest is kept. */
  lemma {:induction false} RemoveProperties<T>(s: seq<T>, x: T)
    ensures x !in Remove(s, x)
    ensures multiset(Remove(s, x)) == multiset(s)[x := 0]
    ensures IsSubsequence(Remove(s, x), s)
    decreases |s|
  {
    if s != [] {
      RemoveProperties(s[1..], x);
      var r := Remove(s, x);
      var rest := Remove(s[1..], x);
      RemoveCount(s, x);
      if s[0] == x {
        assert r == rest;
        SubsequenceDrop(rest, s);
      } else {
        assert r == [s[0]] + rest;
        assert r[1..] == rest;
      }
    }
  }

  /** One step of the multiset equation of `RemoveProperties`. */
  lemma RemoveCount<T>(s: seq<T>, x: T)
    requires s != []
    requires multiset(Remove(s[1..], x)) == multiset(s[1..])[x := 0]
    ensures multiset(Remove(s, x)) == multiset(s)[x := 0]
  {
    assert s == [s[0]] + s[1..];
    assert multiset(s) == multiset([s[0]]) + multiset(s[1..]);
    if s[0] != x {
      assert Remove(s, x) == [s[0]] + Remove(s[1..], x);
    }
  }

  lemma SubsequenceDrop<T>(a: seq<T>, s: seq<T>)
    requires s != [] && IsSubsequence(a, s[1..])
    ensures IsSubsequence(a, s)
    decreases |s|
  {
    if a != [] && a[0] == s[0] {
      if |s| > 1 {
        SubsequenceTail(a, s[1..]);
        assert s[1..][1..] == s[2..];
      }
    }
  }

  lemma SubsequenceTail<T>(a: seq<T>, s: seq<T>)
    requires a != [] && IsSubsequence(a, s)
    ensures IsSubsequence(a[1..], s[1..])
    decreases |s|
  {
    if a[0] != s[0] {
      SubsequenceTail(a, s[1..]);
      SubsequenceDrop(a[1..], s[1..]);
    }
  }

  // ---------------------------------------------------------------------
  // Conditional pushes: `if (p(x)) list.push(x)` for each `x` of a fixed order
  // ---------------------------------------------------------------------

  /** `if (c) xs.push(x)`, as a value. */
  function PushIf<T>(xs: seq<T>, c: bool, x: T): seq<T> {
    if c then xs + [x] else xs
  }

  /** The elements of `s` that satisfy `p`, in order. */
  function Filter<T>(s: seq<T>, p: T -> bool): seq<T>
    decreases |s|
  {
    if s == [] then [] else (if p(s[0]) then [s[0]] else []) + Filter(s[1..], p)
  }

  /** Filtering a concatenation filters each part. */
  lemma {:induction false} FilterAppend<T>(a: seq<T>, b: seq<T>, p: T -> bool)
    ensures Filter(a + b, p) == Filter(a, p) + Filter(b, p)
    decreases |a|
  {
    if a == [] {
      assert a + b == b;
    } else {
      var h := if p(a[0]) then [a[0]] else [];
      assert (a + b)[0] == a[0];
      assert (a + b)[1..] == a[1..] + b;
      assert Filter(a + b, p) == h + Filter(a[1..] + b, p);
      FilterAppend(a[1..], b, p);
      assert Filter(a, p) == h + Filter(a[1..], p);
      assert (h + Filter(a[1..], p)) + Filter(b, p) == h + (Filter(a[1..], p) + Filter(b, p));
    }
  }

  /** One more push: the filter of a longer prefix of the order. */
  lemma FilterPrefixStep<T>(s: seq<T>, k: nat, p: T -> bool)
    requires k < |s|
    ensures Filter(s[..k + 1], p) == Filter(s[..k], p) + (if p(s[k]) then [s[k]] else [])
  {
    assert s[..k + 1] == s[..k] + [s[k]];
    FilterAppend(s[..k], [s[k]], p);
    assert [s[k]][1..] == [];
  }

  /** Exactly the elements satisfying `p` are kept, in their order, and a
      sequence without duplicates stays so. */
  lemma {:induction false} FilterProperties<T>(s: seq<T>, p: T -> bool)
    ensures forall x :: x in Filter(s, p) <==> x in s && p(x)
    ensures IsSubsequence(Filter(s, p), s)
    ensures NoDup(s) ==> NoDup(Filter(s, p))
    ensures |Filter(s, p)| <= |s|
    decreases |s|
  {
    if s != [] {
      var tail := s[1..];
      FilterProperties(tail, p);
      assert s == [s[0]] + tail;
      forall x
        ensures x in s <==> x == s[0] || x in tail
      {
        assert x in [s[0]] + tail <==> x in [s[0]] || x in tail;
      }
      if p(s[0]) {
        var f := Filter(s, p);
        assert f == [s[0]] + Filter(tail, p);
        assert f[0] == s[0] && f[1..] == Filter(tail, p);
        assert IsSubsequence(f, s);
      } else {
        assert Filter(s, p) == Filter(tail, p);
        SubsequenceDrop(Filter(tail, p), s);
      }
      if NoDup(s) {
        forall i, j | 0 <= i < j < |tail|
          ensures tail[i] != tail[j]
        {
          assert tail[i] == s[i + 1] && tail[j] == s[j + 1];
        }
        forall i | 0 <= i < |tail|
          ensures tail[i] != s[0]
        {
          assert tail[i] == s[i + 1];
        }
        var f := Filter(s, p);
        var rest := Filter(tail, p);
        if p(s[0]) {
          assert s[0] !in rest;
          forall i, j | 0 <= i < j < |f|
            ensures f[i] != f[j]
          {
            assert f == [s[0]] + rest;
            if i == 0 {
              assert f[j] == rest[j - 1];
              assert f[j] in rest;
            } else {
              assert f[i] == rest[i - 1] && f[j] == rest[j - 1];
            }
          }
        }
      }
    }
  }
}
