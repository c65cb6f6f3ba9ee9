/** Stable sorting by a key, as a list's `sort(key=...)` does it. */
module Arrange {

  type Key = (int, int)

  predicate Precedes(a: Key, b: Key)
  {
    a.0 < b.0 || (a.0 == b.0 && a.1 <= b.1)
  }

  ghost predicate Sorted<T>(xs: seq<T>, key: T -> Key)
  {
    forall i, j :: 0 <= i < j < |xs| ==> Precedes(key(xs[i]), key(xs[j]))
  }

  /** After every element that precedes it or ties with it. */
  function Insert<T>(x: T, xs: seq<T>, key: T -> Key): seq<T>
  {
    if xs == [] || Precedes(key(xs[|xs| - 1]), key(x)) then xs + [x]
    else Insert(x, xs[..|xs| - 1], key) + [xs[|xs| - 1]]
  }

  function SortBy<T>(xs: seq<T>, key: T -> Key): seq<T>
  {
    if xs == [] then [] else Insert(xs[|xs| - 1], SortBy(xs[..|xs| - 1], key), key)
  }

  function Map<T, U>(xs: seq<T>, f: T -> U): (r: seq<U>)
    ensures |r| == |xs| && forall i :: 0 <= i < |xs| ==> r[i] == f(xs[i])
  {
    seq(|xs|, i requires 0 <= i < |xs| => f(xs[i]))
  }

  lemma MapPlus<T, U>(xs: seq<T>, ys: seq<T>, f: T -> U)
    ensures Map(xs + ys, f) == Map(xs, f) + Map(ys, f)
  {
  }

  lemma {:induction false} InsertMaps<T, U>(x: T, xs: seq<T>, key: T -> Key, f: T -> U)
    ensures multiset(Map(Insert(x, xs, key), f)) == multiset(Map(xs, f)) + multiset{f(x)}
  {
    if xs == [] || Precedes(key(xs[|xs| - 1]), key(x)) {
      MapPlus(xs, [x], f);
    } else {
      var front, last := xs[..|xs| - 1], xs[|xs| - 1];
      InsertMaps(x, front, key, f);
      assert xs == front + [last];
      MapPlus(front, [last], f);
      MapPlus(Insert(x, front, key), [last], f);
    }
  }

  /** Sorting neither loses nor repeats what it sorts, through any reading of the elements. */
  lemma {:induction false} SortMaps<T, U>(xs: seq<T>, key: T -> Key, f: T -> U)
    ensures multiset(Map(SortBy(xs, key), f)) == multiset(Map(xs, f))
    ensures |SortBy(xs, key)| == |xs|
  {
    if xs != [] {
      var front, last := xs[..|xs| - 1], xs[|xs| - 1];
      SortMaps(front, key, f);
      InsertMaps(last, SortBy(front, key), key, f);
      assert xs == front + [last];
      MapPlus(front, [last], f);
      assert multiset(Map(xs, f)) == multiset(Map(front, f)) + multiset{f(last)};
    }
    assert |multiset(Map(SortBy(xs, key), f))| == |SortBy(xs, key)|;
    assert |multiset(Map(xs, f))| == |xs|;
  }

  /** What is sorted is what was there. */
  lemma SortPermutes<T>(xs: seq<T>, key: T -> Key)
    ensures multiset(SortBy(xs, key)) == multiset(xs)
    ensures forall x :: x in SortBy(xs, key) <==> x in xs
  {
    var same := (x: T) => x;
    SortMaps(xs, key, same);
    assert Map(xs, same) == xs && Map(SortBy(xs, key), same) == SortBy(xs, key);
    assert forall x :: x in SortBy(xs, key) <==> x in multiset(SortBy(xs, key));
    assert forall x :: x in xs <==> x in multiset(xs);
  }

  ghost predicate Within<T>(ys: seq<T>, xs: seq<T>, x: T)
  {
    forall i :: 0 <= i < |ys| ==> ys[i] in xs || ys[i] == x
  }

  lemma {:induction false} InsertSorted<T>(x: T, xs: seq<T>, key: T -> Key)
    requires Sorted(xs, key)
    ensures Sorted(Insert(x, xs, key), key)
    ensures Within(Insert(x, xs, key), xs, x)
  {
    if xs != [] && !Precedes(key(xs[|xs| - 1]), key(x)) {
      var front, last := xs[..|xs| - 1], xs[|xs| - 1];
      InsertSorted(x, front, key);
      assert xs == front + [last];
      var rest := Insert(x, front, key);
      forall i | 0 <= i < |rest| ensures Precedes(key(rest[i]), key(last)) {
        if rest[i] in front {
          var j :| 0 <= j < |front| && front[j] == rest[i];
          assert xs[j] == rest[i] && xs[|xs| - 1] == last;
          assert Precedes(key(xs[j]), key(xs[|xs| - 1]));
        } else {
          assert rest[i] == x;
        }
      }
      assert forall y :: y in front ==> y in xs;
    }
  }

  lemma {:induction false} SortSorts<T>(xs: seq<T>, key: T -> Key)
    ensures Sorted(SortBy(xs, key), key)
  {
    if xs != [] {
      SortSorts(xs[..|xs| - 1], key);
      InsertSorted(xs[|xs| - 1], SortBy(xs[..|xs| - 1], key), key);
    }
  }

  /** `[x for x in xs if keep(x)]` */
  function Filter<T(!new)>(xs: seq<T>, keep: T -> bool): (r: seq<T>)
    ensures forall x :: x in r <==> x in xs && keep(x)
  {
    if xs == [] then []
    else
      var last := xs[|xs| - 1];
      assert xs == xs[..|xs| - 1] + [last];
      Filter(xs[..|xs| - 1], keep) + (if keep(last) then [last] else [])
  }

  lemma {:induction false} FilterDistinct<T(!new)>(xs: seq<T>, keep: T -> bool)
    requires Distinct(xs)
    ensures Distinct(Filter(xs, keep))
  {
    if xs != [] {
      FilterDistinct(xs[..|xs| - 1], keep);
      assert xs[|xs| - 1] !in xs[..|xs| - 1];
    }
  }

  // ------------------------------------------------------------- restoring a list's order

  ghost predicate Distinct<T>(xs: seq<T>)
  {
    forall i, j :: 0 <= i < j < |xs| ==> xs[i] != xs[j]
  }

  /** Where an element of the list first stands; 0 for one that is not there. */
  function IndexOf<T(==)>(xs: seq<T>, x: T): (k: nat)
    ensures x in xs ==> k < |xs| && xs[k] == x && x !in xs[..k]
  {
    if xs == [] then 0
    else if xs[0] == x then 0
    else if x in xs[1..] then
      var k := IndexOf(xs[1..], x);
      assert xs[..k + 1] == [xs[0]] + xs[1..][..k];
      1 + k
    else 0
  }

  /** The same elements in the order of their places in `xs` are `xs`. */
  lemma OrderRestored<T>(xs: seq<T>, ys: seq<T>)
    requires Distinct(xs) && multiset(ys) == multiset(xs)
    requires forall i, j :: 0 <= i < j < |ys| ==> IndexOf(xs, ys[i]) <= IndexOf(xs, ys[j])
    ensures ys == xs
  {
    assert |multiset(xs)| == |xs| && |multiset(ys)| == |ys|;
    forall i | 0 <= i < |ys| ensures ys[i] in xs {
      assert ys[i] in multiset(ys);
    }
    OnceEach(xs, ys);
    var places := seq(|ys|, i requires 0 <= i < |ys| => IndexOf(xs, ys[i]));
    forall i, j | 0 <= i < j < |ys| ensures places[i] < places[j] {
      assert xs[places[i]] == ys[i] && xs[places[j]] == ys[j];
    }
    Climb(places, |xs|);
    forall i | 0 <= i < |ys| ensures ys[i] == xs[i] {
      assert places[i] == i;
    }
  }

  /** No element repeats in a list with the elements of a list without repetitions. */
  lemma OnceEach<T>(xs: seq<T>, ys: seq<T>)
    requires Distinct(xs) && multiset(ys) == multiset(xs)
    ensures Distinct(ys)
  {
    forall i, j | 0 <= i < j < |ys| ensures ys[i] != ys[j] {
      if ys[i] == ys[j] {
        assert ys == ys[..i] + [ys[i]] + ys[i + 1..j] + [ys[j]] + ys[j + 1..];
        assert multiset(ys)[ys[i]] >= 2;
        CountsOnce(xs, ys[i]);
        assert false;
      }
    }
  }

  lemma {:induction false} CountsOnce<T>(xs: seq<T>, x: T)
    requires Distinct(xs)
    ensures multiset(xs)[x] <= 1
  {
    if xs != [] {
      CountsOnce(xs[..|xs| - 1], x);
      assert xs == xs[..|xs| - 1] + [xs[|xs| - 1]];
      assert xs[|xs| - 1] !in xs[..|xs| - 1];
      assert xs[|xs| - 1] !in multiset(xs[..|xs| - 1]);
    }
  }

  /** Strictly rising places below their own number are the places 0, 1, 2, … */
  lemma Climb(places: seq<nat>, n: nat)
    requires |places| == n && forall i, j :: 0 <= i < j < n ==> places[i] < places[j]
    requires forall i :: 0 <= i < n ==> places[i] < n
    ensures forall i :: 0 <= i < n ==> places[i] == i
  {
    forall i | 0 <= i < n ensures places[i] == i {
      AtLeast(places, i);
      RoomAbove(places, i);
    }
  }

  lemma {:induction false} AtLeast(places: seq<nat>, i: nat)
    requires i < |places| && forall i, j :: 0 <= i < j < |places| ==> places[i] < places[j]
    ensures places[i] >= i
  {
    if i > 0 { AtLeast(places, i - 1); }
  }

  lemma {:induction false} RoomAbove(places: seq<nat>, i: nat)
    requires i < |places| && forall i, j :: 0 <= i < j < |places| ==> places[i] < places[j]
    requires forall i :: 0 <= i < |places| ==> places[i] < |places|
    ensures places[i] <= i
    decreases |places| - i
  {
    if i + 1 < |places| { RoomAbove(places, i + 1); }
  }
}
