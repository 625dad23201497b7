/** Sorting by a comparator, as the library sort is used throughout: any sorted permutation
    may come back, and the lemmas say when there is only one. */
module Sorting {
  import opened Bytes

  ghost predicate TotalPreorder<T(!new)>(le: (T, T) -> bool) {
    && (forall x, y :: le(x, y) || le(y, x))
    && (forall x, y, z :: le(x, y) && le(y, z) ==> le(x, z))
  }

  /** Only equal elements of `xs` tie under the comparator. */
  ghost predicate NoTies<T>(le: (T, T) -> bool, xs: seq<T>) {
    forall i, j :: 0 <= i < |xs| && 0 <= j < |xs| && le(xs[i], xs[j]) && le(xs[j], xs[i]) ==> xs[i] == xs[j]
  }

  predicate IsSortOf<T(==)>(le: (T, T) -> bool, xs: seq<T>, ys: seq<T>) {
    multiset(xs) == multiset(ys) && Ordered(le, ys)
  }

  function Insert<T>(le: (T, T) -> bool, x: T, xs: seq<T>): seq<T> {
    if xs == [] || le(x, xs[0]) then [x] + xs else [xs[0]] + Insert(le, x, xs[1..])
  }

  function Sort<T>(le: (T, T) -> bool, xs: seq<T>): seq<T> {
    if xs == [] then [] else Insert(le, xs[0], Sort(le, xs[1..]))
  }

  lemma {:induction false} InsertSorts<T(!new)>(le: (T, T) -> bool, x: T, xs: seq<T>)
    requires TotalPreorder(le) && Ordered(le, xs)
    ensures multiset(Insert(le, x, xs)) == multiset{x} + multiset(xs)
    ensures Ordered(le, Insert(le, x, xs))
    ensures Insert(le, x, xs)[0] == x || (xs != [] && Insert(le, x, xs)[0] == xs[0])
  {
    if xs != [] {
      assert xs == [xs[0]] + xs[1..];
      if !le(x, xs[0]) {
        InsertSorts(le, x, xs[1..]);
        var tail := Insert(le, x, xs[1..]);
        assert le(xs[0], tail[0]);
      }
    }
  }

  lemma {:induction false} SortSorts<T(!new)>(le: (T, T) -> bool, xs: seq<T>)
    requires TotalPreorder(le)
    ensures IsSortOf(le, xs, Sort(le, xs))
    ensures |Sort(le, xs)| == |xs|
  {
    if xs != [] {
      SortSorts(le, xs[1..]);
      InsertSorts(le, xs[0], Sort(le, xs[1..]));
      assert xs == [xs[0]] + xs[1..];
    }
    assert |multiset(xs)| == |xs| && |multiset(Sort(le, xs))| == |Sort(le, xs)|;
  }

  lemma {:induction false} FirstIsLeast<T(!new)>(le: (T, T) -> bool, xs: seq<T>, k: nat)
    requires TotalPreorder(le) && Ordered(le, xs) && k < |xs|
    ensures le(xs[0], xs[k])
  {
    if k > 0 {
      FirstIsLeast(le, xs, k - 1);
      assert le(xs[k - 1], xs[k]);
    } else {
      assert le(xs[0], xs[0]);
    }
  }

  lemma HeadsAgree<T(!new)>(le: (T, T) -> bool, xs: seq<T>, ys: seq<T>)
    requires TotalPreorder(le) && NoTies(le, xs)
    requires Ordered(le, xs) && Ordered(le, ys) && multiset(xs) == multiset(ys) && xs != [] && ys != []
    ensures xs[0] == ys[0]
  {
    assert xs[0] in multiset(ys) && ys[0] in multiset(xs);
    var i :| 0 <= i < |ys| && ys[i] == xs[0];
    var j :| 0 <= j < |xs| && xs[j] == ys[0];
    FirstIsLeast(le, ys, i);
    FirstIsLeast(le, xs, j);
  }

  lemma TailsAgree<T>(xs: seq<T>, ys: seq<T>)
    requires multiset(xs) == multiset(ys) && xs != [] && ys != [] && xs[0] == ys[0]
    ensures multiset(xs[1..]) == multiset(ys[1..])
  {
    assert xs == [xs[0]] + xs[1..] && ys == [ys[0]] + ys[1..];
    assert multiset(xs[1..]) == multiset(xs) - multiset{xs[0]};
    assert multiset(ys[1..]) == multiset(ys) - multiset{ys[0]};
  }

  /** Two sorted arrangements of the same elements are the same list when nothing ties. */
  lemma {:induction false} SortIsUnique<T(!new)>(le: (T, T) -> bool, xs: seq<T>, ys: seq<T>)
    requires TotalPreorder(le) && NoTies(le, xs)
    requires Ordered(le, xs) && Ordered(le, ys) && multiset(xs) == multiset(ys)
    ensures xs == ys
  {
    SameElements(xs, ys);
    if xs != [] {
      HeadsAgree(le, xs, ys);
      TailsAgree(xs, ys);
      assert Ordered(le, xs[1..]) && Ordered(le, ys[1..]) && NoTies(le, xs[1..]);
      hide Ordered, TotalPreorder, NoTies;
      SortIsUnique(le, xs[1..], ys[1..]);
      assert xs == [xs[0]] + xs[1..] && ys == [ys[0]] + ys[1..];
    }
  }

  /** Permuting a list does not create ties. */
  lemma NoTiesPermuted<T(!new)>(le: (T, T) -> bool, xs: seq<T>, ys: seq<T>)
    requires NoTies(le, xs) && multiset(xs) == multiset(ys)
    ensures NoTies(le, ys)
  {
    forall i, j | 0 <= i < |ys| && 0 <= j < |ys| && le(ys[i], ys[j]) && le(ys[j], ys[i])
      ensures ys[i] == ys[j]
    {
      assert ys[i] in multiset(xs) && ys[j] in multiset(xs);
      var a :| 0 <= a < |xs| && xs[a] == ys[i];
      var b :| 0 <= b < |xs| && xs[b] == ys[j];
    }
  }

  /** So whatever arrangement the library sort returns, it is `Sort`. */
  lemma AnySortIsSort<T(!new)>(le: (T, T) -> bool, xs: seq<T>, ys: seq<T>)
    requires TotalPreorder(le) && NoTies(le, xs) && IsSortOf(le, xs, ys)
    ensures ys == Sort(le, xs)
  {
    SortSorts(le, xs);
    NoTiesPermuted(le, xs, ys);
    SortIsUnique(le, ys, Sort(le, xs));
  }

  /** Sorting forgets order and nothing else. */
  lemma SortsAgree<T(!new)>(le: (T, T) -> bool, xs: seq<T>, ys: seq<T>)
    requires TotalPreorder(le) && NoTies(le, xs)
    ensures Sort(le, xs) == Sort(le, ys) <==> multiset(xs) == multiset(ys)
  {
    SortSorts(le, xs);
    SortSorts(le, ys);
    if multiset(xs) == multiset(ys) {
      NoTiesPermuted(le, xs, Sort(le, xs));
      SortIsUnique(le, Sort(le, xs), Sort(le, ys));
    }
  }

  /** A list already in order is its own sort. */
  lemma SortOfSorted<T(!new)>(le: (T, T) -> bool, xs: seq<T>)
    requires TotalPreorder(le) && NoTies(le, xs) && Ordered(le, xs)
    ensures Sort(le, xs) == xs
  {
    AnySortIsSort(le, xs, xs);
  }

  lemma SortKeeps<T(!new)>(le: (T, T) -> bool, xs: seq<T>, ok: T -> bool)
    requires TotalPreorder(le)
    ensures AllOk(ok, Sort(le, xs)) <==> AllOk(ok, xs)
  {
    SortSorts(le, xs);
    SameElements(xs, Sort(le, xs));
    if AllOk(ok, xs) {
      forall i | 0 <= i < |Sort(le, xs)| ensures ok(Sort(le, xs)[i]) {
        assert Sort(le, xs)[i] in xs;
      }
    }
    if AllOk(ok, Sort(le, xs)) {
      forall i | 0 <= i < |xs| ensures ok(xs[i]) {
        assert xs[i] in Sort(le, xs);
      }
    }
  }

  /** The library sort: the caller learns that the result is a sorted permutation, and no more. */
  method StdSort<T(!new,==)>(le: (T, T) -> bool, xs: seq<T>) returns (ys: seq<T>)
    requires TotalPreorder(le)
    ensures IsSortOf(le, xs, ys)
  {
    ys := Sort(le, xs);
    SortSorts(le, xs);
  }

  lemma SameElements<T>(xs: seq<T>, ys: seq<T>)
    requires multiset(xs) == multiset(ys)
    ensures forall x :: x in xs <==> x in ys
    ensures |xs| == |ys|
  {
    forall x ensures x in xs <==> x in ys {
      assert x in xs <==> x in multiset(xs);
      assert x in ys <==> x in multiset(ys);
    }
    assert |multiset(xs)| == |xs| && |multiset(ys)| == |ys|;
  }

  /** What a sorted copy shares with the original when nothing ties. */
  lemma SortedCopy<T(!new)>(le: (T, T) -> bool, xs: seq<T>, ys: seq<T>, p: T -> bool, q: T -> bool)
    requires TotalPreorder(le) && NoTies(le, xs) && IsSortOf(le, xs, ys)
    ensures ys == Sort(le, xs) && |ys| == |xs|
    ensures (AllOk(p, ys) <==> AllOk(p, xs)) && (AllOk(q, ys) <==> AllOk(q, xs))
  {
    AnySortIsSort(le, xs, ys);
    SameElements(xs, ys);
    SortKeeps(le, xs, p);
    SortKeeps(le, xs, q);
  }

  function Map<A, B>(f: A -> B, xs: seq<A>): (ys: seq<B>)
    ensures |ys| == |xs|
    ensures forall i :: 0 <= i < |xs| ==> ys[i] == f(xs[i])
  {
    seq(|xs|, i requires 0 <= i < |xs| => f(xs[i]))
  }

  function Without<T>(xs: seq<T>, i: nat): seq<T>
    requires i < |xs|
  {
    xs[..i] + xs[i + 1..]
  }

  lemma WithoutOne<T>(xs: seq<T>, i: nat)
    requires i < |xs|
    ensures multiset(xs) == multiset{xs[i]} + multiset(Without(xs, i))
  {
    assert xs == xs[..i] + ([xs[i]] + xs[i + 1..]);
  }

  lemma WithoutSame<T>(xs: seq<T>, i: nat, ys: seq<T>, j: nat)
    requires i < |xs| && j < |ys| && xs[i] == ys[j]
    ensures multiset(xs) == multiset(ys) <==> multiset(Without(xs, i)) == multiset(Without(ys, j))
  {
    WithoutOne(xs, i);
    WithoutOne(ys, j);
    assert multiset(Without(xs, i)) == multiset(xs) - multiset{xs[i]};
    assert multiset(Without(ys, j)) == multiset(ys) - multiset{xs[i]};
  }

  lemma MapWithout<A, B>(f: A -> B, xs: seq<A>, i: nat)
    requires i < |xs|
    ensures Without(Map(f, xs), i) == Map(f, Without(xs, i))
  {
  }

  /** Permuting the arguments permutes the images. */
  lemma {:induction false} MapPermuted<A, B>(f: A -> B, xs: seq<A>, ys: seq<A>)
    requires multiset(xs) == multiset(ys)
    ensures multiset(Map(f, xs)) == multiset(Map(f, ys))
  {
    SameElements(xs, ys);
    if xs != [] {
      assert xs[0] in ys;
      var i :| 0 <= i < |ys| && ys[i] == xs[0];
      WithoutSame(xs, 0, ys, i);
      assert |Without(xs, 0)| < |xs|;
      hide Without, Map;
      MapPermuted(f, Without(xs, 0), Without(ys, i));
      MapWithout(f, xs, 0);
      MapWithout(f, ys, i);
      WithoutSame(Map(f, xs), 0, Map(f, ys), i);
    }
  }

  predicate Distinct<T(==)>(xs: seq<T>) {
    forall i, j :: 0 <= i < j < |xs| ==> xs[i] != xs[j]
  }

  lemma {:induction false} DistinctByCount<T>(xs: seq<T>)
    ensures Distinct(xs) <==> forall x :: multiset(xs)[x] <= 1
  {
    if xs != [] {
      var tail := xs[1..];
      DistinctByCount(tail);
      assert xs == [xs[0]] + tail;
      assert multiset(xs) == multiset{xs[0]} + multiset(tail);
      assert xs[0] in multiset(tail) <==> xs[0] in tail;
      assert Distinct(xs) <==> xs[0] !in tail && Distinct(tail);
      if Distinct(xs) {
        forall x ensures multiset(xs)[x] <= 1 {
          assert multiset(xs)[x] == multiset{xs[0]}[x] + multiset(tail)[x];
        }
      }
      if forall x :: multiset(xs)[x] <= 1 {
        forall x ensures multiset(tail)[x] <= 1 {
          assert multiset(xs)[x] == multiset{xs[0]}[x] + multiset(tail)[x];
        }
        assert multiset(xs)[xs[0]] == 1 + multiset(tail)[xs[0]];
      }
    }
  }

  lemma DistinctPermuted<T>(xs: seq<T>, ys: seq<T>)
    requires multiset(xs) == multiset(ys)
    ensures Distinct(xs) <==> Distinct(ys)
  {
    DistinctByCount(xs);
    DistinctByCount(ys);
  }

  lemma {:induction false} StrictHeads<T(!new)>(less: (T, T) -> bool, xs: seq<T>)
    requires forall x, y, z :: less(x, y) && less(y, z) ==> less(x, z)
    requires Ordered(less, xs) && xs != []
    ensures forall x :: x in xs[1..] ==> less(xs[0], x)
  {
    if |xs| > 1 {
      StrictHeads(less, xs[1..]);
      assert less(xs[0], xs[1]);
      assert xs[1..] == [xs[1]] + xs[2..] && xs[1..][1..] == xs[2..];
    }
  }

  /** In a sorted list, strictly ascending and pairwise distinct keys are the same thing, for a
      strict order that is the sorting order between different keys. */
  lemma {:induction false} StrictIffDistinct<A(!new), B(!new)>(le: (A, A) -> bool, less: (A, A) -> bool, f: A -> B,
                                                               xs: seq<A>)
    requires forall x, y, z :: less(x, y) && less(y, z) ==> less(x, z)
    requires forall x, y :: less(x, y) ==> f(x) != f(y)
    requires forall x, y :: le(x, y) && f(x) != f(y) ==> less(x, y)
    requires Ordered(le, xs)
    ensures Ordered(less, xs) <==> Distinct(Map(f, xs))
  {
    var keys: seq<B> := Map(f, xs);
    if Distinct(keys) {
      forall i | 0 < i < |xs| ensures less(xs[i - 1], xs[i]) {
        assert keys[i - 1] != keys[i] && le(xs[i - 1], xs[i]);
      }
    }
    if Ordered(less, xs) && xs != [] {
      StrictHeads(less, xs);
      StrictIffDistinct(le, less, f, xs[1..]);
      var tail: seq<B> := Map(f, xs[1..]);
      assert tail == keys[1..];
      forall i, j | 0 <= i < j < |keys| ensures keys[i] != keys[j] {
        if i == 0 {
          assert xs[1..][j - 1] == xs[j];
        } else {
          assert tail[i - 1] != tail[j - 1];
        }
      }
    }
  }

  lemma StrictHeadsAgree<T(!new)>(less: (T, T) -> bool, xs: seq<T>, ys: seq<T>)
    requires forall x :: !less(x, x)
    requires forall x, y, z :: less(x, y) && less(y, z) ==> less(x, z)
    requires Ordered(less, xs) && Ordered(less, ys)
    requires xs != [] && ys != [] && ys[0] in xs && xs[0] in ys
    ensures xs[0] == ys[0]
  {
    StrictHeads(less, xs);
    StrictHeads(less, ys);
    assert xs == [xs[0]] + xs[1..] && ys == [ys[0]] + ys[1..];
    var x, y := xs[0], ys[0];
    assert y in xs[1..] ==> less(x, y);
    assert x in ys[1..] ==> less(y, x);
    assert !(less(x, y) && less(y, x));
  }

  /** Two strictly ascending lists with the same elements are the same list. */
  lemma {:induction false} StrictIsUnique<T(!new)>(less: (T, T) -> bool, xs: seq<T>, ys: seq<T>)
    requires forall x :: !less(x, x)
    requires forall x, y, z :: less(x, y) && less(y, z) ==> less(x, z)
    requires Ordered(less, xs) && Ordered(less, ys)
    requires forall x :: x in xs <==> x in ys
    ensures xs == ys
  {
    assert forall x :: x in xs ==> |ys| > 0;
    assert forall x :: x in ys ==> |xs| > 0;
    assert |xs| > 0 ==> xs[0] in xs;
    assert |ys| > 0 ==> ys[0] in ys;
    if |xs| > 0 {
      StrictHeadsAgree(less, xs, ys);
      StrictHeads(less, xs);
      StrictHeads(less, ys);
      assert xs == [xs[0]] + xs[1..] && ys == [ys[0]] + ys[1..];
      forall x ensures x in xs[1..] <==> x in ys[1..] {
        assert x in xs <==> x == xs[0] || x in xs[1..];
        assert x in ys <==> x == ys[0] || x in ys[1..];
      }
      StrictIsUnique(less, xs[1..], ys[1..]);
    }
  }
}
