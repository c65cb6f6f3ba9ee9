/** Sorting of real sequences, and what negation does to it. */
module Ordering {

  ghost predicate Ascending(xs: seq<real>)
  {
    forall i, j :: 0 <= i < j < |xs| ==> xs[i] <= xs[j]
  }

  function Insert(x: real, xs: seq<real>): seq<real>
  {
    if xs == [] || x <= xs[0] then [x] + xs else [xs[0]] + Insert(x, xs[1..])
  }

  function Sort(xs: seq<real>): seq<real>
  {
    if xs == [] then [] else Insert(xs[|xs| - 1], Sort(xs[..|xs| - 1]))
  }

  lemma {:induction false} InsertAdds(x: real, xs: seq<real>)
    ensures multiset(Insert(x, xs)) == multiset(xs) + multiset{x}
    ensures |Insert(x, xs)| == |xs| + 1
  {
    if xs != [] && x > xs[0] {
      assert xs == [xs[0]] + xs[1..];
      InsertAdds(x, xs[1..]);
    }
  }

  lemma {:induction false} InsertAscends(x: real, xs: seq<real>)
    requires Ascending(xs)
    ensures Ascending(Insert(x, xs))
  {
    if xs != [] && x > xs[0] {
      var rest := xs[1..];
      InsertAscends(x, rest);
      InsertAdds(x, rest);
      forall i | 0 <= i < |Insert(x, rest)| ensures xs[0] <= Insert(x, rest)[i] {
        assert Insert(x, rest)[i] in multiset(Insert(x, rest));
        assert Insert(x, rest)[i] == x || Insert(x, rest)[i] in rest;
      }
    }
  }

  lemma {:induction false} SortPermutes(xs: seq<real>)
    ensures Ascending(Sort(xs))
    ensures multiset(Sort(xs)) == multiset(xs)
    ensures |Sort(xs)| == |xs|
  {
    if xs != [] {
      var front := xs[..|xs| - 1];
      assert xs == front + [xs[|xs| - 1]];
      SortPermutes(front);
      InsertAscends(xs[|xs| - 1], Sort(front));
      InsertAdds(xs[|xs| - 1], Sort(front));
    }
  }

  /** Two ascending arrangements of the same values are the same sequence. */
  lemma {:induction false} AscendingUnique(a: seq<real>, b: seq<real>)
    requires Ascending(a) && Ascending(b) && multiset(a) == multiset(b)
    ensures a == b
  {
    assert |multiset(a)| == |a| && |multiset(b)| == |b|;
    if a != [] {
      LeastAlike(a, b);
      WithoutHead(a);
      WithoutHead(b);
      AscendingUnique(a[1..], b[1..]);
    }
  }

  lemma LeastAlike(a: seq<real>, b: seq<real>)
    requires Ascending(a) && Ascending(b) && multiset(a) == multiset(b) && a != [] && b != []
    ensures a[0] == b[0]
  {
    assert a[0] in multiset(b) && b[0] in multiset(a);
  }

  lemma WithoutHead(a: seq<real>)
    requires a != []
    ensures a == [a[0]] + a[1..] && multiset(a[1..]) == multiset(a) - multiset{a[0]}
  {
    assert a == [a[0]] + a[1..];
  }

  /** Sorting forgets the order its values arrived in. */
  lemma SortForgetsOrder(a: seq<real>, b: seq<real>)
    requires multiset(a) == multiset(b)
    ensures Sort(a) == Sort(b)
  {
    SortPermutes(a);
    SortPermutes(b);
    AscendingUnique(Sort(a), Sort(b));
  }

  function Negated(xs: seq<real>): (r: seq<real>)
  {
    seq(|xs|, i requires 0 <= i < |xs| => -xs[i])
  }

  function Mirror(xs: seq<real>): (r: seq<real>)
  {
    seq(|xs|, i requires 0 <= i < |xs| => -xs[|xs| - 1 - i])
  }

  lemma {:induction false} NegatedCount(xs: seq<real>, v: real)
    ensures multiset(Negated(xs))[v] == multiset(xs)[-v]
  {
    if xs != [] {
      var front := xs[..|xs| - 1];
      NegatedCount(front, v);
      assert xs == front + [xs[|xs| - 1]];
      assert Negated(xs) == Negated(front) + [-xs[|xs| - 1]];
    }
  }

  lemma {:induction false} MirrorCount(xs: seq<real>, v: real)
    ensures multiset(Mirror(xs))[v] == multiset(xs)[-v]
  {
    if xs != [] {
      var front := xs[..|xs| - 1];
      MirrorCount(front, v);
      assert xs == front + [xs[|xs| - 1]];
      assert Mirror(xs) == [-xs[|xs| - 1]] + Mirror(front);
    }
  }

  /** Sorting the negated values is reading the sorted ones backwards. */
  lemma SortMirror(xs: seq<real>)
    ensures Sort(Negated(xs)) == Mirror(Sort(xs))
  {
    SortPermutes(xs);
    SortPermutes(Negated(xs));
    forall v: real ensures multiset(Sort(Negated(xs)))[v] == multiset(Mirror(Sort(xs)))[v] {
      NegatedCount(xs, v);
      MirrorCount(Sort(xs), v);
    }
    AscendingUnique(Sort(Negated(xs)), Mirror(Sort(xs)));
  }

  // --------------------------------------------------------------------------- counting

  /** How many of the values satisfy the test. */
  function CountIf(xs: seq<real>, keep: real -> bool): nat
  {
    if xs == [] then 0 else (if keep(xs[0]) then 1 else 0) + CountIf(xs[1..], keep)
  }

  function Below(x: real): real -> bool { v => v < x }
  function UpTo(x: real): real -> bool { v => v <= x }
  function Above(x: real): real -> bool { v => v > x }
  function From(x: real): real -> bool { v => v >= x }

  lemma {:induction false} CountPlus(xs: seq<real>, ys: seq<real>, keep: real -> bool)
    ensures CountIf(xs + ys, keep) == CountIf(xs, keep) + CountIf(ys, keep)
  {
    if xs == [] {
      assert xs + ys == ys;
    } else {
      assert (xs + ys)[1..] == xs[1..] + ys;
      CountPlus(xs[1..], ys, keep);
    }
  }

  lemma {:induction false} CountInsert(x: real, xs: seq<real>, keep: real -> bool)
    ensures CountIf(Insert(x, xs), keep) == CountIf(xs, keep) + if keep(x) then 1 else 0
  {
    if xs == [] || x <= xs[0] {
      assert ([x] + xs)[1..] == xs;
    } else {
      CountInsert(x, xs[1..], keep);
      assert ([xs[0]] + Insert(x, xs[1..]))[1..] == Insert(x, xs[1..]);
    }
  }

  lemma {:induction false} CountSort(xs: seq<real>, keep: real -> bool)
    ensures CountIf(Sort(xs), keep) == CountIf(xs, keep)
  {
    if xs != [] {
      var front, last := xs[..|xs| - 1], xs[|xs| - 1];
      CountSort(front, keep);
      CountInsert(last, Sort(front), keep);
      CountPlus(front, [last], keep);
      assert xs == front + [last] && CountIf([last], keep) == if keep(last) then 1 else 0;
    }
  }

  lemma {:induction false} CountBounds(xs: seq<real>, keep: real -> bool)
    ensures CountIf(xs, keep) <= |xs|
    ensures (forall i :: 0 <= i < |xs| ==> keep(xs[i])) ==> CountIf(xs, keep) == |xs|
    ensures (forall i :: 0 <= i < |xs| ==> !keep(xs[i])) ==> CountIf(xs, keep) == 0
  {
    if xs != [] {
      assert forall i :: 0 <= i < |xs| - 1 ==> xs[1..][i] == xs[i + 1];
      CountBounds(xs[1..], keep);
    }
  }

  lemma {:induction false} CountNegated(xs: seq<real>, keep: real -> bool, mirrored: real -> bool)
    requires forall v :: mirrored(v) <==> keep(-v)
    ensures CountIf(Negated(xs), mirrored) == CountIf(xs, keep)
  {
    if xs != [] {
      assert Negated(xs)[1..] == Negated(xs[1..]);
      CountNegated(xs[1..], keep, mirrored);
    }
  }

  /** A value between the `f`-th and the next of an ascending list leaves that many below it. */
  lemma CountAt(xs: seq<real>, f: nat, low: real)
    requires Ascending(xs) && f < |xs| && xs[f] <= low && (f + 1 < |xs| ==> low <= xs[f + 1])
    ensures CountIf(xs, Below(low)) <= f + 1 <= CountIf(xs, UpTo(low))
  {
    hide CountIf;
    var front, back := xs[..f + 1], xs[f + 1..];
    assert xs == front + back;
    CountPlus(front, back, Below(low));
    CountPlus(front, back, UpTo(low));
    CountBounds(front, Below(low));
    CountBounds(front, UpTo(low));
    forall i | 0 <= i < |back| ensures !Below(low)(back[i]) { assert xs[f + 1] <= xs[f + 1 + i]; }
    CountBounds(back, Below(low));
    forall i | 0 <= i < |front| ensures UpTo(low)(front[i]) { assert xs[i] <= xs[f]; }
  }
}
