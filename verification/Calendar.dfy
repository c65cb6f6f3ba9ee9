/**
  The trading calendar of `calendar.py`, in whole minutes of one zone. The source's map
  from date to session is the list of its sessions in date order.
*/
module Calendar {
  import opened Wrappers

  const DAY: int := 1440

  datatype Session = Session(day: int, openAt: int, closeAt: int)

  type Calendar = seq<Session>

  function DayOf(moment: int): int
  {
    moment / DAY
  }

  /** One session per date, opening and closing on it. */
  ghost predicate IsCalendar(c: Calendar)
  {
    && (forall i :: 0 <= i < |c| ==>
          DayOf(c[i].openAt) == c[i].day == DayOf(c[i].closeAt) && c[i].openAt < c[i].closeAt)
    && (forall i, j :: 0 <= i < j < |c| ==> c[i].day < c[j].day)
  }

  // ------------------------------------------------------------------ binary searches

  ghost predicate Ascending(a: seq<int>)
  {
    forall i, j :: 0 <= i < j < |a| ==> a[i] <= a[j]
  }

  /** The first index whose value is above `x` (`right`) or at least `x`, by halving. */
  function Bisect(a: seq<int>, x: int, right: bool, lo: nat, hi: nat): (r: nat)
    requires lo <= hi <= |a| && Ascending(a)
    requires forall i :: 0 <= i < lo ==> Passed(a[i], x, right)
    requires forall i :: hi <= i < |a| ==> !Passed(a[i], x, right)
    ensures r <= |a|
    ensures forall i :: 0 <= i < |a| ==> (i < r <==> Passed(a[i], x, right))
    decreases hi - lo
  {
    if lo == hi then lo
    else
      var mid := (lo + hi) / 2;
      if Passed(a[mid], x, right) then Bisect(a, x, right, mid + 1, hi) else Bisect(a, x, right, lo, mid)
  }

  /** The values a search leaves behind it. */
  predicate Passed(v: int, x: int, right: bool)
  {
    if right then v <= x else v < x
  }

  function BisectRight(a: seq<int>, x: int): nat
    requires Ascending(a)
  {
    Bisect(a, x, true, 0, |a|)
  }

  function BisectLeft(a: seq<int>, x: int): nat
    requires Ascending(a)
  {
    Bisect(a, x, false, 0, |a|)
  }

  // -------------------------------------------------------------- completed sessions

  function Closes(c: Calendar): (a: seq<int>)
  {
    seq(|c|, i requires 0 <= i < |c| => c[i].closeAt)
  }

  lemma ClosesAscend(c: Calendar)
    requires IsCalendar(c)
    ensures forall i, j :: 0 <= i < j < |c| ==> c[i].closeAt < c[j].openAt
    ensures Ascending(Closes(c))
  {
    forall i, j | 0 <= i < j < |c| ensures c[i].closeAt < c[j].openAt {
      assert c[i].day < c[j].day;
    }
  }

  function ClosesThrough(c: Calendar, moment: int): nat
    requires IsCalendar(c)
  {
    ClosesAscend(c);
    BisectRight(Closes(c), moment)
  }

  function CompletedBetween(c: Calendar, start: int, end: int): nat
    requires IsCalendar(c)
  {
    var n := ClosesThrough(c, end) - ClosesThrough(c, start);
    if n < 0 then 0 else n
  }

  /** The scan the searches replace: the sessions that closed after `start` and by `end`. */
  ghost function ClosedIn(c: Calendar, start: int, end: int): set<int>
  {
    set i | 0 <= i < |c| && start < c[i].closeAt <= end
  }

  ghost function Indices(lo: int, hi: int): (r: set<int>)
    requires lo <= hi
    ensures forall i :: i in r <==> lo <= i < hi
    ensures |r| == hi - lo
    decreases hi - lo
  {
    if lo == hi then {} else Indices(lo, hi - 1) + {hi - 1}
  }

  /** Two binary searches count exactly what the scan counts, a close at `end` included. */
  lemma CompletedBetweenCounts(c: Calendar, start: int, end: int)
    requires IsCalendar(c)
    ensures CompletedBetween(c, start, end) == |ClosedIn(c, start, end)|
  {
    ClosesAscend(c);
    var lo, hi := ClosesThrough(c, start), ClosesThrough(c, end);
    assert forall i :: 0 <= i < |c| ==> Closes(c)[i] == c[i].closeAt;
    if lo <= hi {
      forall i ensures i in ClosedIn(c, start, end) <==> i in Indices(lo, hi) {
        if 0 <= i < |c| { assert Passed(Closes(c)[i], end, true) <==> i < hi; }
      }
      assert ClosedIn(c, start, end) == Indices(lo, hi);
    } else {
      forall i | 0 <= i < |c| ensures !(start < c[i].closeAt <= end) {
        assert Passed(Closes(c)[i], end, true) <==> i < hi;
        assert Passed(Closes(c)[i], start, true) <==> i < lo;
      }
      assert ClosedIn(c, start, end) == {};
    }
  }

  lemma ClosesThroughMonotone(c: Calendar, a: int, b: int)
    requires IsCalendar(c) && a <= b
    ensures ClosesThrough(c, a) <= ClosesThrough(c, b)
  {
    ClosesAscend(c);
    var r, s := ClosesThrough(c, a), ClosesThrough(c, b);
    if s < r {
      assert Passed(Closes(c)[s], a, true);
      assert Passed(Closes(c)[s], b, true);
    }
  }

  // ------------------------------------------------------------------------- queries

  function SessionOn(c: Calendar, day: int): (r: Option<Session>)
    ensures r.Some? ==> r.value in c && r.value.day == day
    ensures r == None ==> forall s :: s in c ==> s.day != day
  {
    if c == [] then None
    else
      var last := c[|c| - 1];
      assert c == c[..|c| - 1] + [last];
      if last.day == day then Some(last) else SessionOn(c[..|c| - 1], day)
  }

  /** A date has one session, so looking it up finds it. */
  lemma SessionOnIts(c: Calendar, s: Session)
    requires IsCalendar(c) && s in c
    ensures SessionOn(c, s.day) == Some(s)
  {
    var i :| 0 <= i < |c| && c[i] == s;
    var found := SessionOn(c, s.day);
    assert found.Some?;
    var j :| 0 <= j < |c| && c[j] == found.value;
    assert i == j;
  }

  function SessionFor(c: Calendar, moment: int): Option<Session>
  {
    SessionOn(c, DayOf(moment))
  }

  /** The latest session whose close, plus a lag, is at or before the moment. */
  function LastClosed(c: Calendar, moment: int, lag: int): (r: Option<Session>)
    ensures r.Some? ==> r.value in c && r.value.closeAt + lag <= moment
    ensures r == None ==> forall s :: s in c ==> moment < s.closeAt + lag
  {
    if c == [] then None
    else
      var last := c[|c| - 1];
      assert c == c[..|c| - 1] + [last];
      var r := LastClosed(c[..|c| - 1], moment, lag);
      if last.closeAt + lag <= moment && (r == None || r.value.closeAt <= last.closeAt) then Some(last) else r
  }

  /** No session after the last closed one has closed, lag included. */
  lemma {:induction false} LastClosedIsLatest(c: Calendar, moment: int, lag: int)
    ensures LastClosed(c, moment, lag).Some? ==>
      forall s :: s in c && s.closeAt + lag <= moment ==> s.closeAt <= LastClosed(c, moment, lag).value.closeAt
  {
    if c != [] {
      var last := c[|c| - 1];
      assert c == c[..|c| - 1] + [last];
      LastClosedIsLatest(c[..|c| - 1], moment, lag);
    }
  }

  /** Days are numbered from a Monday, so the ISO week of a day is a division. */
  function Week(day: int): int
  {
    day / 7
  }

  predicate IsLastOfWeek(c: Calendar, day: int)
  {
    SessionOn(c, day).Some?
    && !exists i :: 0 <= i < |c| && c[i].day > day && Week(c[i].day) == Week(day)
  }
}
