/**
  The one-position portfolio of `veto_portfolio.py`. The loop keeps running totals; its
  specification looks back over the whole history at every entry.
*/
module Portfolio {
  import opened Wrappers
  import opened Arrange
  import opened Contracts
  import Calendar
  import Selector
  import Simulator

  const START_EQUITY: real := 100000.0

  datatype Group = Permitted | BreadthVetoed

  datatype EntryStatus = Entered | Stopped(reason: string)

  /** `day` and `year` are the two readings of the entry's session date. */
  datatype Entry = Entry(day: int, year: int, group: Group, status: EntryStatus, estimatedDebit: Option<real>)

  datatype What = Capacity | Skipped(reason: string) | OverBudget | Traded(ended: int, result: real, resolved: bool)

  /** One allowed entry, what became of it, and the equity after it. */
  datatype Event = Event(entry: Entry, what: What, equity: real)

  datatype Market = Market(trades: map<int, Simulator.Trade>, windowEnd: map<int, int>)

  predicate Resolved(t: Simulator.Trade)
  {
    t.status == Simulator.Closed && t.result.Some?
  }

  /**
    A closed trade's own result and exit day; else the whole debit, held to the end of its
    window. Nothing when it raises: no trade, a result without an exit, or no window.
  */
  function Taken(m: Market, e: Entry): Option<What>
  {
    if e.day !in m.trades then None
    else
      var t := m.trades[e.day];
      if Resolved(t) then
        if t.exitedAt == None then None
        else Some(Traded(Calendar.DayOf(t.exitedAt.value), t.result.value, true))
      else if e.day !in m.windowEnd then None
      else Some(Traded(m.windowEnd[e.day], -t.entryDebit * Simulator.MULTIPLIER, false))
  }

  function Budget(equity: real): real
  {
    Cents(equity * Selector.RISK_FRACTION_OF_EQUITY)
  }

  // -------------------------------------------------------------------- specification

  function Result(e: Event): real
  {
    if e.what.Traded? then e.what.result else 0.0
  }

  /** The sum of every result so far. */
  function Results(events: seq<Event>): real
  {
    if events == [] then 0.0 else Results(events[..|events| - 1]) + Result(events[|events| - 1])
  }

  function ResultsIn(events: seq<Event>, year: int): real
  {
    if events == [] then 0.0
    else
      var last := events[|events| - 1];
      ResultsIn(events[..|events| - 1], year) + (if last.entry.year == year then Result(last) else 0.0)
  }

  /** Some earlier position is still held on the day. */
  ghost predicate Busy(events: seq<Event>, day: int)
  {
    exists i :: 0 <= i < |events| && events[i].what.Traded? && day <= events[i].what.ended
  }

  /** What becomes of an entry, given everything before it; nothing when the loop raises on it. */
  ghost function Fate(m: Market, before: seq<Event>, e: Entry): Option<What>
  {
    if Busy(before, e.day) then Some(Capacity)
    else if e.status != Entered then Some(Skipped(e.status.reason))
    else if e.estimatedDebit == None then None
    else if e.estimatedDebit.value * Simulator.MULTIPLIER > Budget(START_EQUITY + Results(before)) then Some(OverBudget)
    else Taken(m, e)
  }

  /** An event follows from the ones before it, and carries the equity they add up to. */
  ghost predicate Follows(m: Market, e: Entry, before: seq<Event>, event: Event)
  {
    && event.entry == e
    && Fate(m, before, e) == Some(event.what)
    && event.equity == START_EQUITY + Results(before) + Result(event)
  }

  ghost predicate IsHistory(m: Market, entries: seq<Entry>, events: seq<Event>)
  {
    && |events| == |entries|
    && forall i :: 0 <= i < |entries| ==> Follows(m, entries[i], events[..i], events[i])
  }

  /** The history reaches an entry that reads something missing. */
  ghost predicate Raises(m: Market, entries: seq<Entry>)
  {
    exists n, events :: 0 <= n < |entries| && IsHistory(m, entries[..n], events) && Fate(m, events, entries[n]) == None
  }

  /** The equity before any event, then after each. */
  function Curve(events: seq<Event>): (r: seq<real>)
  {
    [START_EQUITY] + seq(|events|, i requires 0 <= i < |events| => events[i].equity)
  }

  /** The largest drop from any point of the curve to any later one. */
  ghost predicate IsWorstFall(curve: seq<real>, w: real)
  {
    && (forall i, j :: 0 <= i <= j < |curve| ==> curve[i] - curve[j] <= w)
    && (exists i, j :: 0 <= i <= j < |curve| && curve[i] - curve[j] == w)
  }

  ghost predicate IsPeak(curve: seq<real>, p: real)
  {
    p in curve && forall i :: 0 <= i < |curve| ==> curve[i] <= p
  }

  lemma PeakStep(curve: seq<real>, p: real, x: real)
    requires IsPeak(curve, p)
    ensures IsPeak(curve + [x], if x > p then x else p)
  {
    assert x == (curve + [x])[|curve|];
    var i :| 0 <= i < |curve| && curve[i] == p;
    assert p == (curve + [x])[i];
  }

  lemma FallStep(curve: seq<real>, p: real, w: real, x: real)
    requires IsPeak(curve, p) && IsWorstFall(curve, w)
    ensures var q := if x > p then x else p; IsWorstFall(curve + [x], if q - x > w then q - x else w)
  {
    var q := if x > p then x else p;
    var longer := curve + [x];
    PeakStep(curve, p, x);
    if q - x > w {
      var i :| 0 <= i < |longer| && longer[i] == q;
      assert longer[i] - longer[|curve|] == q - x;
    } else {
      var i, j :| 0 <= i <= j < |curve| && curve[i] - curve[j] == w;
      assert longer[i] - longer[j] == w;
    }
  }

  // ----------------------------------------------------------------------- the loop

  ghost predicate YearsMatch(events: seq<Event>, byYear: map<int, real>)
  {
    && (forall y :: y in byYear ==> byYear[y] == ResultsIn(events, y))
    && (forall y :: y !in byYear ==> ResultsIn(events, y) == 0.0)
  }

  function UnresolvedDays(events: seq<Event>): seq<int>
  {
    if events == [] then []
    else
      var last := events[|events| - 1];
      UnresolvedDays(events[..|events| - 1])
        + (if last.what.Traded? && !last.what.resolved then [last.entry.day] else [])
  }

  predicate InOrder(entries: seq<Entry>)
  {
    forall i, j :: 0 <= i < j < |entries| ==> entries[i].day <= entries[j].day
  }

  lemma HistoryStep(m: Market, entries: seq<Entry>, events: seq<Event>, e: Entry, event: Event)
    requires IsHistory(m, entries, events) && Follows(m, e, events, event)
    ensures IsHistory(m, entries + [e], events + [event])
  {
    hide Follows;
    var more := events + [event];
    forall i | 0 <= i < |more| ensures Follows(m, (entries + [e])[i], more[..i], more[i]) {
      assert more[..i] == events[..i];
      assert events[..|events|] == events;
    }
  }

  /** The last position's end answers for every earlier one, as entries come in date order. */
  ghost predicate BusyUntil(events: seq<Event>, busy: Option<int>)
  {
    match busy
    case None => forall i :: 0 <= i < |events| ==> !events[i].what.Traded?
    case Some(b) => exists i :: 0 <= i < |events| && events[i].what.Traded? && events[i].what.ended == b
                                && forall j :: i < j < |events| ==> !events[j].what.Traded?
  }

  /** Held intervals never overlap: a position is taken only after every earlier one has ended. */
  lemma {:induction false} PositionsNeverOverlap(m: Market, entries: seq<Entry>, events: seq<Event>, i: nat, j: nat)
    requires IsHistory(m, entries, events)
    requires i < j < |events| && events[i].what.Traded? && events[j].what.Traded?
    ensures events[i].what.ended < entries[j].day
  {
    assert Follows(m, entries[j], events[..j], events[j]);
    assert events[..j][i] == events[i];
  }

  lemma LastEndDecides(m: Market, entries: seq<Entry>, events: seq<Event>, busy: Option<int>, day: int)
    requires IsHistory(m, entries, events) && BusyUntil(events, busy)
    requires forall i :: 0 <= i < |entries| ==> entries[i].day <= day
    ensures Busy(events, day) <==> busy.Some? && day <= busy.value
  {
    hide Follows;
    if busy.Some? {
      var last :| 0 <= last < |events| && events[last].what.Traded? && events[last].what.ended == busy.value
                  && forall j :: last < j < |events| ==> !events[j].what.Traded?;
      forall i | 0 <= i < |events| && events[i].what.Traded? && day <= events[i].what.ended ensures i == last {
        if i < last { PositionsNeverOverlap(m, entries, events, i, last); }
      }
    }
  }

  datatype Totals = Totals(
    equity: real, peak: real, worstFall: real, events: seq<Event>, byYear: map<int, real>, unresolved: seq<int>)

  /** Every total is what the history it was built from says. */
  ghost predicate Sound(t: Totals)
  {
    && t.equity == START_EQUITY + Results(t.events) == Curve(t.events)[|t.events|]
    && IsPeak(Curve(t.events), t.peak) && IsWorstFall(Curve(t.events), t.worstFall)
    && YearsMatch(t.events, t.byYear)
    && t.unresolved == UnresolvedDays(t.events)
  }

  /** The totals are updated in place as entries are taken in. */
  class Path {
    var equity: real
    var peak: real
    var worstFall: real
    var events: seq<Event>
    var byYear: map<int, real>
    var unresolved: seq<int>

    function Value(): Totals
      reads this
    {
      Totals(equity, peak, worstFall, events, byYear, unresolved)
    }

    constructor ()
      ensures Sound(Value()) && events == []
    {
      equity, peak, worstFall := START_EQUITY, START_EQUITY, 0.0;
      events, byYear, unresolved := [], map[], [];
      new;
      assert Curve(events)[0] - Curve(events)[0] == 0.0;
    }

    /** An entry that was not taken: only the event is added. */
    method Pass(e: Entry, what: What)
      requires !what.Traded?
      modifies this
      ensures Value() == Passed(old(Value()), e, what)
    {
      events := events + [Event(e, what, equity)];
    }

    /** A position taken: its result moves every total. */
    method Take(e: Entry, what: What)
      requires what.Traded?
      modifies this
      ensures Value() == Booked(old(Value()), e, what)
    {
      if !what.resolved { unresolved := unresolved + [e.day]; }
      equity := equity + what.result;
      peak := if equity > peak then equity else peak;
      worstFall := if peak - equity > worstFall then peak - equity else worstFall;
      byYear := byYear[e.year := (if e.year in byYear then byYear[e.year] else 0.0) + what.result];
      events := events + [Event(e, what, equity)];
    }
  }

  function Passed(t: Totals, e: Entry, what: What): Totals
  {
    t.(events := t.events + [Event(e, what, t.equity)])
  }

  lemma PassStep(t: Totals, e: Entry, what: What)
    requires Sound(t) && !what.Traded?
    ensures Sound(Passed(t, e, what))
  {
    hide Results, IsPeak, IsWorstFall, YearsMatch, UnresolvedDays;
    TotalsStep(t.events, t.byYear, Event(e, what, t.equity));
    PeakStep(Curve(t.events), t.peak, t.equity);
    FallStep(Curve(t.events), t.peak, t.worstFall, t.equity);
    AtOrBelow(Curve(t.events), t.peak, t.worstFall, t.equity);
  }

  /** The totals after a position's result. */
  function Booked(t: Totals, e: Entry, what: What): Totals
    requires what.Traded?
  {
    var equity := t.equity + what.result;
    var peak := if equity > t.peak then equity else t.peak;
    Totals(
      equity, peak, if peak - equity > t.worstFall then peak - equity else t.worstFall,
      t.events + [Event(e, what, equity)],
      t.byYear[e.year := (if e.year in t.byYear then t.byYear[e.year] else 0.0) + what.result],
      if what.resolved then t.unresolved else t.unresolved + [e.day])
  }

  lemma TakeStep(t: Totals, e: Entry, what: What)
    requires Sound(t) && what.Traded?
    ensures Sound(Booked(t, e, what))
  {
    hide Results, IsPeak, IsWorstFall, YearsMatch, UnresolvedDays;
    var equity := t.equity + what.result;
    TotalsStep(t.events, t.byYear, Event(e, what, equity));
    PeakStep(Curve(t.events), t.peak, equity);
    FallStep(Curve(t.events), t.peak, t.worstFall, equity);
  }

  /** The last point of the curve moves neither the peak nor the fall. */
  lemma AtOrBelow(curve: seq<real>, p: real, w: real, x: real)
    requires IsPeak(curve, p) && IsWorstFall(curve, w) && curve != [] && curve[|curve| - 1] == x
    ensures x <= p && p - x <= w
  {
    var i :| 0 <= i < |curve| && curve[i] == p;
  }

  lemma TotalsStep(events: seq<Event>, byYear: map<int, real>, event: Event)
    requires YearsMatch(events, byYear)
    ensures Results(events + [event]) == Results(events) + Result(event)
    ensures Curve(events + [event]) == Curve(events) + [event.equity]
    ensures UnresolvedDays(events + [event])
         == UnresolvedDays(events) + (if event.what.Traded? && !event.what.resolved then [event.entry.day] else [])
    ensures YearsMatch(events + [event],
      if event.what.Traded? then byYear[event.entry.year :=
        (if event.entry.year in byYear then byYear[event.entry.year] else 0.0) + event.what.result]
      else byYear)
  {
    assert (events + [event])[..|events|] == events;
  }

  /** What becomes of one allowed entry: held capacity first, then its own status, then the budget. */
  method Judge(equity: real, e: Entry, busyUntil: Option<int>, m: Market, ghost mine: seq<Entry>,
               ghost before: seq<Event>)
    returns (what: Option<What>)
    requires equity == START_EQUITY + Results(before)
    requires IsHistory(m, mine, before) && BusyUntil(before, busyUntil)
    requires forall i :: 0 <= i < |mine| ==> mine[i].day <= e.day
    ensures what == Fate(m, before, e)
  {
    LastEndDecides(m, mine, before, busyUntil, e.day);
    hide IsHistory, BusyUntil, Busy, Results, Taken, Budget;
    if busyUntil.Some? && e.day <= busyUntil.value { return Some(Capacity); }
    if e.status != Entered { return Some(Skipped(e.status.reason)); }
    if e.estimatedDebit == None { return None; }
    if e.estimatedDebit.value * Simulator.MULTIPLIER > Budget(equity) { return Some(OverBudget); }
    what := Taken(m, e);
  }

  method Consider(path: Path, e: Entry, busyUntil: Option<int>, m: Market, ghost mine: seq<Entry>)
    returns (raised: bool, busy: Option<int>)
    requires Sound(path.Value())
    requires IsHistory(m, mine, path.events) && BusyUntil(path.events, busyUntil)
    requires forall i :: 0 <= i < |mine| ==> mine[i].day <= e.day
    modifies path
    ensures raised == Fate(m, old(path.events), e).None?
    ensures !raised ==> Sound(path.Value()) && IsHistory(m, mine + [e], path.events) && BusyUntil(path.events, busy)
  {
    SoundEquity(path.Value());
    hide IsHistory, BusyUntil, Fate, Sound, Booked, Passed, Results;
    var judged := Judge(path.equity, e, busyUntil, m, mine, path.events);
    if judged == None { return true, busyUntil; }
    var what := judged.value;
    raised, busy := false, busyUntil;
    if what.Traded? {
      TradedKeeps(path.Value(), m, mine, e, busyUntil, what);
      busy := Some(what.ended);
      path.Take(e, what);
    } else {
      PassedKeeps(path.Value(), m, mine, e, busyUntil, what);
      path.Pass(e, what);
    }
  }

  lemma SoundEquity(t: Totals)
    requires Sound(t)
    ensures t.equity == START_EQUITY + Results(t.events)
  {
  }

  /** A position taken: the totals, the history and the last end move on together. */
  lemma TradedKeeps(t: Totals, m: Market, mine: seq<Entry>, e: Entry, busy: Option<int>, what: What)
    requires Sound(t) && Fate(m, t.events, e) == Some(what) && what.Traded?
    requires IsHistory(m, mine, t.events) && BusyUntil(t.events, busy)
    ensures var u := Booked(t, e, what);
      Sound(u) && IsHistory(m, mine + [e], u.events) && BusyUntil(u.events, Some(what.ended))
  {
    hide Fate, Sound, Follows, IsHistory, BusyUntil, Results;
    SoundEquity(t);
    var event := Event(e, what, t.equity + what.result);
    HistoryKeeps(t.events, t.equity, m, mine, e, event);
    BusyStep(t.events, busy, event);
    TakeStep(t, e, what);
  }

  /** An entry not taken: the event is added and nothing else moves. */
  lemma PassedKeeps(t: Totals, m: Market, mine: seq<Entry>, e: Entry, busy: Option<int>, what: What)
    requires Sound(t) && Fate(m, t.events, e) == Some(what) && !what.Traded?
    requires IsHistory(m, mine, t.events) && BusyUntil(t.events, busy)
    ensures var u := Passed(t, e, what);
      Sound(u) && IsHistory(m, mine + [e], u.events) && BusyUntil(u.events, busy)
  {
    hide Fate, Sound, Follows, IsHistory, BusyUntil, Results;
    SoundEquity(t);
    var event := Event(e, what, t.equity);
    HistoryKeeps(t.events, t.equity, m, mine, e, event);
    BusyStep(t.events, busy, event);
    PassStep(t, e, what);
  }

  lemma HistoryKeeps(events: seq<Event>, equity: real, m: Market, mine: seq<Entry>, e: Entry, event: Event)
    requires equity == START_EQUITY + Results(events) && IsHistory(m, mine, events)
    requires event.entry == e && Fate(m, events, e) == Some(event.what)
    requires event.equity == equity + (if event.what.Traded? then event.what.result else 0.0)
    ensures IsHistory(m, mine + [e], events + [event])
  {
    hide Follows, IsHistory, Fate, Results;
    EventFollows(m, e, events, event, equity);
    HistoryStep(m, mine, events, e, event);
  }

  lemma EventFollows(m: Market, e: Entry, before: seq<Event>, event: Event, equity: real)
    requires equity == START_EQUITY + Results(before)
    requires event.entry == e && Fate(m, before, e) == Some(event.what)
    requires event.equity == equity + (if event.what.Traded? then event.what.result else 0.0)
    ensures Follows(m, e, before, event)
  {
  }

  /** `sorted(entries, key=session)` */
  function ByDay(entries: seq<Entry>): seq<Entry>
  {
    SortBy(entries, (e: Entry) => (e.day, 0))
  }

  lemma ByDayKeeps(entries: seq<Entry>)
    ensures InOrder(ByDay(entries)) && multiset(ByDay(entries)) == multiset(entries)
    ensures forall e :: e in ByDay(entries) <==> e in entries
  {
    var key: Entry -> Key := (e: Entry) => (e.day, 0);
    SortSorts(entries, key);
    SortPermutes(entries, key);
    assert ByDay(entries) == SortBy(entries, key);
  }

  /**
    The online run keeps exactly the history the specification gives, and totals that say
    the same. It raises exactly when that history reaches an entry that lacks what it reads.
  */
  method Run(entries: seq<Entry>, allowed: set<Group>, m: Market) returns (r: Option<Path>)
    ensures r == None <==> Raises(m, Allowed(ByDay(entries), allowed))
    ensures r.Some? ==> fresh(r.value) && Sound(r.value.Value())
    ensures r.Some? ==> IsHistory(m, Allowed(ByDay(entries), allowed), r.value.events)
  {
    ByDayKeeps(entries);
    var ordered := ByDay(entries);
    var path := new Path();
    var busyUntil: Option<int> := None;
    NothingYet(m);
    hide IsHistory, BusyUntil, Sound, ByDay, InOrder, Allowed, Raises;
    assert Allowed(ordered[..0], allowed) == [] by { AllowedNone(allowed); }
    for n := 0 to |ordered|
      invariant fresh(path) && Sound(path.Value())
      invariant IsHistory(m, Allowed(ordered[..n], allowed), path.events)
      invariant BusyUntil(path.events, busyUntil)
    {
      var raised;
      raised, busyUntil := Next(path, ordered, n, busyUntil, m, allowed);
      if raised { return None; }
    }
    assert ordered[..|ordered|] == ordered;
    HistoryExcludesRaise(m, Allowed(ordered, allowed), path.events);
    r := Some(path);
  }

  lemma NothingYet(m: Market)
    ensures IsHistory(m, [], []) && BusyUntil([], None)
  {
  }

  lemma AllowedNone(allowed: set<Group>)
    ensures Allowed([], allowed) == []
  {
  }

  method Next(path: Path, ordered: seq<Entry>, n: nat, busyUntil: Option<int>, m: Market, allowed: set<Group>)
    returns (raised: bool, busy: Option<int>)
    requires n < |ordered| && InOrder(ordered)
    requires Sound(path.Value()) && IsHistory(m, Allowed(ordered[..n], allowed), path.events)
    requires BusyUntil(path.events, busyUntil)
    modifies path
    ensures raised ==> Raises(m, Allowed(ordered, allowed))
    ensures !raised ==> Sound(path.Value()) && BusyUntil(path.events, busy)
    ensures !raised ==> IsHistory(m, Allowed(ordered[..n + 1], allowed), path.events)
  {
    hide IsHistory, BusyUntil, Sound, InOrder, Allowed, Fate, Raises;
    AllowedNext(ordered, allowed, n);
    raised, busy := false, busyUntil;
    ghost var mine, before := Allowed(ordered[..n], allowed), path.events;
    assert mine + [] == mine;
    if ordered[n].group in allowed {
      AllowedBefore(ordered, allowed, n);
      raised, busy := Consider(path, ordered[n], busyUntil, m, mine);
      if raised { RaisesAt(m, ordered, allowed, n, before); }
    }
  }

  /** An allowed entry the loop raises on, met after the history of the ones before it. */
  lemma RaisesAt(m: Market, ordered: seq<Entry>, allowed: set<Group>, n: nat, before: seq<Event>)
    requires n < |ordered| && ordered[n].group in allowed
    requires IsHistory(m, Allowed(ordered[..n], allowed), before) && Fate(m, before, ordered[n]) == None
    ensures Raises(m, Allowed(ordered, allowed))
  {
    hide IsHistory, Fate;
    var all, mine := Allowed(ordered, allowed), Allowed(ordered[..n], allowed);
    AllowedNext(ordered, allowed, n);
    AllowedPrefix(ordered, allowed, n + 1);
    assert all[..|mine|] == mine && all[|mine|] == ordered[n];
  }

  lemma {:induction false} AllowedPrefix(entries: seq<Entry>, allowed: set<Group>, n: nat)
    requires n <= |entries|
    ensures Allowed(entries[..n], allowed) <= Allowed(entries, allowed)
  {
    if n < |entries| {
      var front := entries[..|entries| - 1];
      AllowedPrefix(front, allowed, n);
      assert front[..n] == entries[..n];
    } else {
      assert entries[..n] == entries;
    }
  }

  lemma AllowedNext(entries: seq<Entry>, allowed: set<Group>, n: nat)
    requires n < |entries|
    ensures Allowed(entries[..n + 1], allowed)
         == Allowed(entries[..n], allowed) + (if entries[n].group in allowed then [entries[n]] else [])
  {
    assert entries[..n + 1][..n] == entries[..n];
  }

  lemma AllowedBefore(entries: seq<Entry>, allowed: set<Group>, n: nat)
    requires InOrder(entries) && n < |entries|
    ensures forall i :: 0 <= i < |Allowed(entries[..n], allowed)| ==>
              Allowed(entries[..n], allowed)[i].day <= entries[n].day
  {
    AllowedKeeps(entries[..n], allowed);
    forall e | e in Allowed(entries[..n], allowed) ensures e.day <= entries[n].day {
      assert e in entries[..n];
    }
  }

  lemma BusyStep(events: seq<Event>, busy: Option<int>, event: Event)
    requires BusyUntil(events, busy)
    ensures BusyUntil(events + [event], if event.what.Traded? then Some(event.what.ended) else busy)
  {
    var more := events + [event];
    if event.what.Traded? {
      assert more[|events|] == event;
    } else if busy.Some? {
      var i :| 0 <= i < |events| && events[i].what.Traded? && events[i].what.ended == busy.value
               && forall j :: i < j < |events| ==> !events[j].what.Traded?;
      assert more[i] == events[i];
      forall j | i < j < |more| ensures !more[j].what.Traded? {
      }
    }
  }

  function Allowed(entries: seq<Entry>, allowed: set<Group>): (r: seq<Entry>)
  {
    if entries == [] then []
    else
      var last := entries[|entries| - 1];
      Allowed(entries[..|entries| - 1], allowed) + (if last.group in allowed then [last] else [])
  }

  lemma {:induction false} AllowedKeeps(entries: seq<Entry>, allowed: set<Group>)
    requires InOrder(entries)
    ensures InOrder(Allowed(entries, allowed))
    ensures forall e :: e in Allowed(entries, allowed) <==> e in entries && e.group in allowed
  {
    if entries != [] {
      assert entries == entries[..|entries| - 1] + [entries[|entries| - 1]];
      AllowedKeeps(entries[..|entries| - 1], allowed);
    }
  }

  // ------------------------------------------------------------- what the history says

  /** The specification leaves one history. */
  lemma {:induction false} HistoryUnique(m: Market, entries: seq<Entry>, a: seq<Event>, b: seq<Event>)
    requires IsHistory(m, entries, a) && IsHistory(m, entries, b)
    ensures a == b
  {
    hide Follows;
    if entries != [] {
      var last := |entries| - 1;
      HistoryPrefix(m, entries, a, last);
      HistoryPrefix(m, entries, b, last);
      HistoryUnique(m, entries[..last], a[..last], b[..last]);
      EventUnique(m, entries[last], a[..last], a[last], b[last]);
      assert a == a[..last] + [a[last]] && b == b[..last] + [b[last]];
    }
  }

  lemma EventUnique(m: Market, e: Entry, before: seq<Event>, a: Event, b: Event)
    requires Follows(m, e, before, a) && Follows(m, e, before, b)
    ensures a == b
  {
  }

  lemma HistoryPrefix(m: Market, entries: seq<Entry>, events: seq<Event>, n: nat)
    requires IsHistory(m, entries, events) && n <= |entries|
    ensures IsHistory(m, entries[..n], events[..n])
  {
    hide Follows;
    forall i | 0 <= i < n ensures Follows(m, entries[..n][i], events[..n][..i], events[..n][i]) {
      assert events[..n][..i] == events[..i];
    }
  }

  lemma HistoryExcludesRaise(m: Market, entries: seq<Entry>, events: seq<Event>)
    requires IsHistory(m, entries, events)
    ensures !Raises(m, entries)
  {
    hide Follows, Fate;
    forall n, before | 0 <= n < |entries| && IsHistory(m, entries[..n], before)
      ensures Fate(m, before, entries[n]) != None
    {
      HistoryPrefix(m, entries, events, n);
      HistoryUnique(m, entries[..n], before, events[..n]);
      FateAt(m, entries, events, n);
    }
  }

  /** Entries have a history exactly when the loop raises on none of them. */
  lemma {:induction false} HistoryUnlessRaised(m: Market, entries: seq<Entry>)
    ensures (exists events :: IsHistory(m, entries, events)) <==> !Raises(m, entries)
  {
    hide Follows, Fate;
    forall events | IsHistory(m, entries, events) ensures !Raises(m, entries) {
      HistoryExcludesRaise(m, entries, events);
    }
    if entries == [] {
      NothingYet(m);
    } else if !Raises(m, entries) {
      var last := |entries| - 1;
      var front := entries[..last];
      forall n, before | 0 <= n < |front| && IsHistory(m, front[..n], before)
        ensures Fate(m, before, front[n]) != None {
        assert front[..n] == entries[..n];
      }
      HistoryUnlessRaised(m, front);
      var events :| IsHistory(m, front, events);
      NextEvent(m, entries[last], events);
      var event :| Follows(m, entries[last], events, event);
      HistoryStep(m, front, events, entries[last], event);
      assert entries == front + [entries[last]];
    }
  }

  lemma NextEvent(m: Market, e: Entry, before: seq<Event>)
    requires Fate(m, before, e) != None
    ensures exists event :: Follows(m, e, before, event)
  {
    var what := Fate(m, before, e).value;
    var equity := START_EQUITY + Results(before) + Result(Event(e, what, 0.0));
    assert Follows(m, e, before, Event(e, what, equity));
  }

  lemma FateAt(m: Market, entries: seq<Entry>, events: seq<Event>, n: nat)
    requires IsHistory(m, entries, events) && n < |entries|
    ensures Fate(m, events[..n], entries[n]) == Some(events[n].what)
  {
    assert Follows(m, entries[n], events[..n], events[n]);
  }

  /** A position is taken only when its estimated loss fits 0.75% of the equity standing before it. */
  lemma TradesFitTheBudget(m: Market, entries: seq<Entry>, events: seq<Event>, i: nat)
    requires IsHistory(m, entries, events) && i < |events| && events[i].what.Traded?
    ensures entries[i].status == Entered && entries[i].estimatedDebit.Some?
    ensures entries[i].estimatedDebit.value * Simulator.MULTIPLIER <= Budget(Curve(events)[i])
  {
    assert Follows(m, entries[i], events[..i], events[i]);
    EquityBefore(m, entries, events, i);
  }

  lemma {:induction false} EquityBefore(m: Market, entries: seq<Entry>, events: seq<Event>, i: nat)
    requires IsHistory(m, entries, events) && i <= |events|
    ensures Curve(events)[i] == START_EQUITY + Results(events[..i])
  {
    if i > 0 {
      assert Follows(m, entries[i - 1], events[..i - 1], events[i - 1]);
      assert events[..i][..i - 1] == events[..i - 1];
    }
  }

  ghost function MapSum(m: map<int, real>): real
  {
    if forall k :: k !in m.Keys then 0.0
    else
      var k :| k in m.Keys;
      m[k] + MapSum(m - {k})
  }

  lemma {:induction false} MapSumAny(m: map<int, real>, k: int)
    requires k in m
    ensures MapSum(m) == m[k] + MapSum(m - {k})
    decreases |m|
  {
    var j :| j in m.Keys && MapSum(m) == m[j] + MapSum(m - {j});
    if j != k {
      MapSumAny(m - {j}, k);
      MapSumAny(m - {k}, j);
      assert m - {j} - {k} == m - {k} - {j};
    }
  }

  lemma MapSumUpdate(m: map<int, real>, k: int, v: real)
    ensures MapSum(m[k := v]) == MapSum(m) - (if k in m then m[k] else 0.0) + v
  {
    MapSumAny(m[k := v], k);
    assert m[k := v] - {k} == m - {k};
    if k in m { MapSumAny(m, k); } else { assert m - {k} == m; }
  }

  /** The yearly sums add up to every result, so the final equity is the start plus either. */
  lemma {:induction false} YearlySumsAddUp(events: seq<Event>, byYear: map<int, real>)
    requires YearsMatch(events, byYear)
    ensures MapSum(byYear) == Results(events)
    decreases |events|
  {
    if events == [] {
      AllZero(byYear);
    } else {
      var front, last := events[..|events| - 1], events[|events| - 1];
      var y := last.entry.year;
      var before := byYear[y := ResultsIn(front, y)];
      YearlySumsAddUp(front, before);
      MapSumUpdate(byYear, y, ResultsIn(front, y));
    }
  }

  lemma {:induction false} AllZero(m: map<int, real>)
    requires forall k :: k in m ==> m[k] == 0.0
    ensures MapSum(m) == 0.0
    decreases |m|
  {
    if exists k :: k in m.Keys {
      var k :| k in m.Keys && MapSum(m) == m[k] + MapSum(m - {k});
      AllZero(m - {k});
    }
  }

  // ------------------------------------------------------------------------ the windows

  /** Each entry's last downloaded session: four sessions on, or the last there is; an unknown session raises. */
  method WindowEnds(entries: seq<Entry>, sessions: seq<int>) returns (r: Option<map<int, int>>)
    ensures r == None <==> exists i :: 0 <= i < |entries| && entries[i].day !in sessions
    ensures r.Some? ==> forall i :: 0 <= i < |entries| ==>
      var at := IndexOf(sessions, entries[i].day);
      && entries[i].day in r.value
      && r.value[entries[i].day] == sessions[if at + 4 < |sessions| then at + 4 else |sessions| - 1]
  {
    var out: map<int, int> := map[];
    for n := 0 to |entries|
      invariant forall i :: 0 <= i < n ==> entries[i].day in sessions
      invariant forall i :: 0 <= i < n ==>
        var at := IndexOf(sessions, entries[i].day);
        && entries[i].day in out
        && out[entries[i].day] == sessions[if at + 4 < |sessions| then at + 4 else |sessions| - 1]
    {
      if entries[n].day !in sessions { return None; }
      var at := IndexOf(sessions, entries[n].day);
      out := out[entries[n].day := sessions[if at + 4 < |sessions| then at + 4 else |sessions| - 1]];
    }
    r := Some(out);
  }

  // ------------------------------------------------------------ what a history reads as

  /** A trade taken over: its own result and the day of its exit, or the loss of its whole debit to its window's end. */
  lemma TradedReads(m: Market, entries: seq<Entry>, events: seq<Event>, i: nat)
    requires IsHistory(m, entries, events) && i < |events| && events[i].what.Traded?
    ensures entries[i].day in m.trades
    ensures var t, what := m.trades[entries[i].day], events[i].what;
      && (what.resolved <==> t.status == Simulator.Closed && t.result.Some?)
      && (what.resolved ==>
            t.exitedAt.Some? && what.result == t.result.value && what.ended == t.exitedAt.value / 1440)
      && (!what.resolved ==>
            && entries[i].day in m.windowEnd && what.ended == m.windowEnd[entries[i].day]
            && what.result == -100.0 * t.entryDebit)
  {
    assert Follows(m, entries[i], events[..i], events[i]);
  }

  /** Held on the day by some earlier position of this history. */
  ghost predicate HeldOn(events: seq<Event>, i: int, day: int)
  {
    exists k :: 0 <= k < i < |events| && events[k].what.Traded? && day <= events[k].what.ended
  }

  /** What becomes of each entry: capacity first, then its own status, then 0.75% of the equity standing before it. */
  lemma FatesRead(m: Market, entries: seq<Entry>, events: seq<Event>, i: nat) returns (budget: real)
    requires IsHistory(m, entries, events) && i < |events|
    ensures -0.005 <= budget - 0.0075 * Curve(events)[i] <= 0.005
    ensures var e, what := entries[i], events[i].what;
      && events[i].entry == e
      && (what == Capacity <==> HeldOn(events, i, e.day))
      && (what.Skipped? <==> !HeldOn(events, i, e.day) && e.status.Stopped?)
      && (what.Skipped? ==> what.reason == e.status.reason)
      && (what == OverBudget || what.Traded? ==> e.estimatedDebit.Some?)
      && (what == OverBudget ==> e.estimatedDebit.value * 100.0 > budget)
      && (what.Traded? ==> e.estimatedDebit.value * 100.0 <= budget)
  {
    assert Follows(m, entries[i], events[..i], events[i]);
    EquityBefore(m, entries, events, i);
    budget := Budget(Curve(events)[i]);
    var n := CentsNearest(Curve(events)[i] * Selector.RISK_FRACTION_OF_EQUITY);
    BusyReads(events, i, entries[i].day);
    hide Cents, Busy, HeldOn, Follows;
  }

  lemma BusyReads(events: seq<Event>, i: nat, day: int)
    requires i < |events|
    ensures Busy(events[..i], day) <==> HeldOn(events, i, day)
  {
    if HeldOn(events, i, day) {
      var k :| 0 <= k < i && events[k].what.Traded? && day <= events[k].what.ended;
      assert events[..i][k] == events[k];
    }
  }

  /** The curve starts at a hundred thousand and moves by each result. */
  lemma CurveReads(m: Market, entries: seq<Entry>, events: seq<Event>, i: nat)
    requires IsHistory(m, entries, events) && i < |events|
    ensures Curve(events)[0] == 100000.0 && events[i].equity == Curve(events)[i + 1]
    ensures events[i].equity == Curve(events)[i] + (if events[i].what.Traded? then events[i].what.result else 0.0)
  {
    assert Follows(m, entries[i], events[..i], events[i]);
    EquityBefore(m, entries, events, i);
  }

  /** The unresolved days are those of the trades that never resolved. */
  lemma {:induction false} UnresolvedReads(events: seq<Event>, day: int)
    ensures day in UnresolvedDays(events) <==>
      exists i :: 0 <= i < |events| && events[i].what.Traded? && !events[i].what.resolved && events[i].entry.day == day
  {
    if events != [] {
      var front, last := events[..|events| - 1], events[|events| - 1];
      UnresolvedReads(front, day);
      assert events[|events| - 1] == last;
      if i :| 0 <= i < |front| && front[i].what.Traded? && !front[i].what.resolved && front[i].entry.day == day {
        assert events[i] == front[i];
      }
    }
  }
}
