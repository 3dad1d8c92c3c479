/** A stable insertion sort by an arbitrary weak order, and what it gives. */
module Sorting {

  /** x placed after every element that is not greater. */
  function Insert<T>(lt: (T, T) -> bool, x: T, sorted: seq<T>): seq<T> {
    if sorted == [] then [x]
    else
      var n := |sorted| - 1;
      if lt(x, sorted[n]) then Insert(lt, x, sorted[..n]) + [sorted[n]]
      else sorted + [x]
  }

  function StableSort<T>(lt: (T, T) -> bool, s: seq<T>): seq<T> {
    if s == [] then [] else var n := |s| - 1; Insert(lt, s[n], StableSort(lt, s[..n]))
  }

  ghost predicate WeakOrder<T(!new)>(lt: (T, T) -> bool) {
    && (forall a, b :: !(lt(a, b) && lt(b, a)))
    && (forall a, b, c :: lt(a, b) && !lt(c, b) ==> lt(a, c))
  }

  ghost predicate Sorted<T>(lt: (T, T) -> bool, s: seq<T>) {
    forall i, j :: 0 <= i < j < |s| ==> !lt(s[j], s[i])
  }

  ghost predicate StrictlySorted<T>(lt: (T, T) -> bool, s: seq<T>) {
    forall i, j :: 0 <= i < j < |s| ==> lt(s[i], s[j])
  }

  lemma {:induction false} InsertKeeps<T>(lt: (T, T) -> bool, x: T, s: seq<T>)
    ensures multiset(Insert(lt, x, s)) == multiset(s) + multiset{x}
  {
    if s == [] {
    } else {
      var n := |s| - 1;
      assert s == s[..n] + [s[n]];
      if lt(x, s[n]) {
        InsertKeeps(lt, x, s[..n]);
      }
    }
  }

  lemma InsertHas<T>(lt: (T, T) -> bool, x: T, s: seq<T>)
    ensures forall y :: y in Insert(lt, x, s) ==> y == x || y in s
  {
    InsertKeeps(lt, x, s);
    forall y | y in Insert(lt, x, s) ensures y == x || y in s {
      assert y in multiset(Insert(lt, x, s));
    }
  }

  lemma {:induction false} InsertSorts<T(!new)>(lt: (T, T) -> bool, x: T, s: seq<T>)
    requires WeakOrder(lt) && Sorted(lt, s)
    ensures Sorted(lt, Insert(lt, x, s))
  {
    if s == [] {
    } else {
      var n := |s| - 1;
      if lt(x, s[n]) {
        InsertSorts(lt, x, s[..n]);
        InsertHas(lt, x, s[..n]);
        var r := Insert(lt, x, s[..n]);
        forall i | 0 <= i < |r| ensures !lt(s[n], r[i]) {
          assert r[i] == x || r[i] in s[..n];
        }
      } else {
        assert forall i :: 0 <= i < n ==> !lt(s[n], s[i]);
      }
    }
  }

  lemma {:induction false} StableSortSorts<T(!new)>(lt: (T, T) -> bool, s: seq<T>)
    requires WeakOrder(lt)
    ensures multiset(StableSort(lt, s)) == multiset(s)
    ensures Sorted(lt, StableSort(lt, s))
  {
    if s == [] {
    } else {
      var n := |s| - 1;
      assert s == s[..n] + [s[n]];
      StableSortSorts(lt, s[..n]);
      InsertKeeps(lt, s[n], StableSort(lt, s[..n]));
      InsertSorts(lt, s[n], StableSort(lt, s[..n]));
    }
  }

  lemma HeadsAgree<T(!new)>(lt: (T, T) -> bool, a: seq<T>, b: seq<T>)
    requires forall x, y :: !(lt(x, y) && lt(y, x))
    requires StrictlySorted(lt, a) && StrictlySorted(lt, b)
    requires multiset(a) == multiset(b) && a != [] && b != []
    ensures a[0] == b[0]
  {
    assert a[0] in multiset(b) && b[0] in multiset(a);
    var i :| 0 <= i < |b| && b[i] == a[0];
    var j :| 0 <= j < |a| && a[j] == b[0];
    assert i > 0 ==> lt(b[0], a[0]);
    assert j > 0 ==> lt(a[0], b[0]);
  }

  lemma TailBag<T>(s: seq<T>)
    requires s != []
    ensures multiset(s[1..]) == multiset(s) - multiset{s[0]}
  {
    assert s == [s[0]] + s[1..];
  }

  lemma StrictTail<T(!new)>(lt: (T, T) -> bool, s: seq<T>)
    requires StrictlySorted(lt, s) && s != []
    ensures StrictlySorted(lt, s[1..]) && s == [s[0]] + s[1..]
  {
  }

  lemma {:induction false} StrictlySortedIsUnique<T(!new)>(lt: (T, T) -> bool, a: seq<T>, b: seq<T>)
    requires forall x, y :: !(lt(x, y) && lt(y, x))
    requires StrictlySorted(lt, a) && StrictlySorted(lt, b)
    requires multiset(a) == multiset(b)
    ensures a == b
  {
    assert |multiset(a)| == |a| && |multiset(b)| == |b|;
    if a == [] {
    } else {
      HeadsAgree(lt, a, b);
      TailBag(a);
      TailBag(b);
      StrictTail(lt, a);
      StrictTail(lt, b);
      StrictlySortedIsUnique(lt, a[1..], b[1..]);
    }
  }
}
