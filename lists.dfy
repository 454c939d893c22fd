/** Optional values, as Swift's `T?`. */
module Wrappers {
  datatype Option<T> = None | Some(value: T)
}

/**
 * Sequence operations the cache uses on its ordered key list and on its lists
 * of caches and cachers: first-occurrence search (Swift's `find`/`indexOf`
 * and the hand-written `for` search), `removeAtIndex`, and the
 * "move to the newest end" update of the manifest.
 */
module Lists {

  /** Index of the first occurrence of `x`, or -1 when there is none. */
  function IndexOf<T(==)>(l: seq<T>, x: T): (i: int)
    ensures -1 <= i < |l|
    ensures i == -1 <==> x !in l
    ensures 0 <= i ==> l[i] == x && x !in l[..i]
  {
    if l == [] then -1
    else if l[0] == x then 0
    else
      var j := IndexOf(l[1..], x);
      assert j >= 0 ==> l[..j + 1] == [l[0]] + l[1..][..j];
      if j == -1 then -1 else j + 1
  }

  /** A first-occurrence search written as the source writes it: a loop that stops at the first match. */
  method FindIndex<T(==)>(l: seq<T>, x: T) returns (index: int)
    ensures index == IndexOf(l, x)
  {
    index := -1;
    for i := 0 to |l|
      invariant x !in l[..i]
    {
      if l[i] == x {
        index := i;
        break;
      }
      assert l[..i + 1] == l[..i] + [l[i]];
    }
    assert index == -1 ==> l[..|l|] == l;
  }

  /** Swift's `removeAtIndex`. */
  function RemoveAt<T>(l: seq<T>, i: nat): (r: seq<T>)
    requires i < |l|
    ensures |r| == |l| - 1
  {
    l[..i] + l[i + 1..]
  }

  /** Removes the first occurrence of `x`, if there is one. */
  function RemoveFirst<T(==)>(l: seq<T>, x: T): seq<T> {
    var i := IndexOf(l, x);
    if i == -1 then l else RemoveAt(l, i)
  }

  /** Removing the first occurrence takes exactly one `x` out of the multiset, and nothing when there is none. */
  lemma RemoveFirstCounts<T>(l: seq<T>, x: T)
    ensures multiset(RemoveFirst(l, x)) == multiset(l) - multiset{x}
    ensures x !in l ==> RemoveFirst(l, x) == l
  {
    var i := IndexOf(l, x);
    if i != -1 {
      SplitAt(l, i);
    }
  }

  /** Splitting a sequence around one position splits its multiset the same way. */
  lemma SplitAt<T>(l: seq<T>, i: nat)
    requires i < |l|
    ensures multiset(l) == multiset(l[..i]) + multiset{l[i]} + multiset(l[i + 1..])
    ensures multiset(RemoveAt(l, i)) == multiset(l[..i]) + multiset(l[i + 1..])
  {
    assert l == l[..i] + [l[i]] + l[i + 1..];
  }

  /** Every element left after a store was there before or is the stored one. */
  lemma MoveToEndMembers<T>(l: seq<T>, x: T, y: T)
    requires y in MoveToEnd(l, x)
    ensures y in l || y == x
  {
    var i := IndexOf(l, x);
    if y != x && i != -1 {
      assert y in l[..i] + l[i + 1..];
      assert y in l[..i] || y in l[i + 1..];
    }
  }

  /**
   * The manifest update on a store: the first occurrence of `x` (if any) is
   * removed and `x` is appended at the newest end.
   */
  function MoveToEnd<T(==)>(l: seq<T>, x: T): (r: seq<T>)
    ensures |r| > 0 && r[|r| - 1] == x
  {
    RemoveFirst(l, x) + [x]
  }

  /** Every element occurs at most once. */
  predicate NoDuplicates<T(==)>(l: seq<T>) {
    forall i :: 0 <= i < |l| ==> multiset(l)[l[i]] == 1
  }

  /** `l` with every occurrence of `x` filtered out: the relative order of the other elements. */
  function Without<T(==)>(l: seq<T>, x: T): (r: seq<T>)
    ensures x !in r
  {
    if l == [] then [] else (if l[0] == x then [] else [l[0]]) + Without(l[1..], x)
  }

  lemma {:induction false} WithoutConcat<T>(a: seq<T>, b: seq<T>, x: T)
    ensures Without(a + b, x) == Without(a, x) + Without(b, x)
  {
    if a == [] {
      assert a + b == b;
    } else {
      assert (a + b)[0] == a[0];
      assert (a + b)[1..] == a[1..] + b;
      WithoutConcat(a[1..], b, x);
    }
  }

  /** A store changes how often the stored key occurs to at least one and no other key's count. */
  lemma MoveToEndCounts<T>(l: seq<T>, x: T)
    ensures multiset(MoveToEnd(l, x))[x] == if x in l then multiset(l)[x] else 1
    ensures forall y :: y != x ==> multiset(MoveToEnd(l, x))[y] == multiset(l)[y]
  {
    RemoveFirstCounts(l, x);
    assert multiset(MoveToEnd(l, x)) == multiset(RemoveFirst(l, x)) + multiset{x};
  }

  /**
   * After a store the key occurs exactly once, provided it occurred at most once
   * before, and it is the newest element.
   */
  lemma MoveToEndOnce<T>(l: seq<T>, x: T)
    requires multiset(l)[x] <= 1
    ensures multiset(MoveToEnd(l, x))[x] == 1
    ensures MoveToEnd(l, x)[|MoveToEnd(l, x)| - 1] == x
  {
    MoveToEndCounts(l, x);
  }

  /** A store keeps a duplicate-free key list duplicate-free. */
  lemma MoveToEndKeepsNoDuplicates<T>(l: seq<T>, x: T)
    ensures NoDuplicates(l) ==> NoDuplicates(MoveToEnd(l, x))
  {
    if !NoDuplicates(l) {
      return;
    }
    var r := MoveToEnd(l, x);
    MoveToEndCounts(l, x);
    assert x in l ==> multiset(l)[x] == 1 by {
      if x in l {
        var k := IndexOf(l, x);
        assert l[k] == x;
      }
    }
    forall i | 0 <= i < |r| ensures multiset(r)[r[i]] == 1 {
      var y := r[i];
      if y != x {
        assert y in multiset(r);
        assert y in l;
        var k :| 0 <= k < |l| && l[k] == y;
      }
    }
  }

  /** In a duplicate-free list every element occurs at most once. */
  lemma NoDuplicatesCounts<T>(l: seq<T>, y: T)
    requires NoDuplicates(l)
    ensures multiset(l)[y] <= 1
  {
    if y in l {
      var k := IndexOf(l, y);
      assert l[k] == y;
    }
  }

  /**
   * Removing an element from a duplicate-free list takes it out entirely,
   * keeps every other element, and keeps the list duplicate-free.
   */
  lemma RemoveFirstFromNoDuplicates<T>(l: seq<T>, x: T)
    requires NoDuplicates(l)
    ensures x !in RemoveFirst(l, x)
    ensures forall y :: y != x ==> (y in RemoveFirst(l, x) <==> y in l)
    ensures NoDuplicates(RemoveFirst(l, x))
  {
    var r := RemoveFirst(l, x);
    RemoveFirstCounts(l, x);
    NoDuplicatesCounts(l, x);
    assert multiset(r)[x] == 0;
    forall y | y != x
      ensures y in r <==> y in l
    {
      assert multiset(r)[y] == multiset(l)[y];
    }
    forall i | 0 <= i < |r|
      ensures multiset(r)[r[i]] == 1
    {
      NoDuplicatesCounts(l, r[i]);
      assert r[i] in multiset(r);
    }
  }

  /** Appending an element that is not yet there keeps a list duplicate-free. */
  lemma AppendKeepsNoDuplicates<T>(l: seq<T>, x: T)
    requires NoDuplicates(l) && x !in l
    ensures NoDuplicates(l + [x])
  {
    var r := l + [x];
    assert multiset(r) == multiset(l) + multiset{x};
    forall i | 0 <= i < |r|
      ensures multiset(r)[r[i]] == 1
    {
      if i < |l| {
        assert r[i] == l[i];
      }
    }
  }

  /** Dropping an occurrence of `x` does not change what remains once `x` is filtered out. */
  lemma WithoutRemoveAt<T>(l: seq<T>, i: nat, x: T)
    requires i < |l| && l[i] == x
    ensures Without(RemoveAt(l, i), x) == Without(l, x)
  {
    var a, b := l[..i], l[i + 1..];
    assert l == a + ([x] + b);
    WithoutConcat(a, [x] + b, x);
    WithoutConcat([x], b, x);
    WithoutConcat(a, b, x);
  }

  /** The other keys keep their relative order: dropping `x` from both sides gives the same sequence. */
  lemma MoveToEndKeepsOrder<T>(l: seq<T>, x: T)
    ensures Without(MoveToEnd(l, x), x) == Without(l, x)
  {
    var i := IndexOf(l, x);
    WithoutConcat(RemoveFirst(l, x), [x], x);
    if i != -1 {
      WithoutRemoveAt(l, i, x);
    }
  }

  /** Storing the same key twice in a row leaves the list as storing it once does. */
  lemma MoveToEndIdempotent<T>(l: seq<T>, x: T)
    requires multiset(l)[x] <= 1
    ensures MoveToEnd(MoveToEnd(l, x), x) == MoveToEnd(l, x)
  {
    var r := RemoveFirst(l, x);
    RemoveFirstCounts(l, x);
    assert x !in r by {
      assert multiset(r)[x] == 0;
    }
    var m := r + [x];
    assert IndexOf(m, x) == |r| by {
      assert m[..|r|] == r;
    }
    assert RemoveFirst(m, x) == r by {
      assert m[..|r|] == r;
      assert m[|r| + 1..] == [];
    }
  }
}
