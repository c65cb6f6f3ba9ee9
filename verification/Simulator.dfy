/**
  The exit simulator of `veto_exits.py`: an entered spread stepped through the
  five-minute bars of its two legs, and the group contrast built from its trades.
  Times are whole minutes; `moment - BEFORE`, one microsecond earlier, is one minute earlier.
*/
module Simulator {
  import opened Wrappers
  import opened Contracts
  import opened Calendar
  import opened Exits
  import Bootstrap

  const BAR: int := 5
  const MAX_AGE: int := 15
  const MAX_LEG_GAP: int := 10
  const FILL_AT: int := 605
  const MULTIPLIER: real := 100.0

  datatype Case = Optimistic | Central | Pessimistic

  function Friction(c: Case): real
  {
    match c case Optimistic => 0.00 case Central => 0.05 case Pessimistic => 0.10
  }

  datatype Bar = Bar(price: real, volume: int)

  /** A leg's bars, by opening time. */
  type Bars = map<int, Bar>

  datatype Path = Path(long: Bars, short: Bars, last: int)

  /** The daily closes, in session order. */
  datatype DailyClose = DailyClose(day: int, close: real)

  datatype Entry = Entry(day: int, fillReference: real, width: real, expiration: int, invalidation: real)

  datatype Status = Closed | NoExitFill | NoTrigger | NoPath

  datatype Flag = EntryOutsideWidth | ExitOutsideWidth

  datatype Trade = Trade(
    entry: Entry, kase: Case, entryDebit: real, status: Status, trigger: Option<Trigger>,
    triggeredAt: Option<int>, exitedAt: Option<int>, exitValue: Option<real>, result: Option<real>,
    sessionsHeld: Option<nat>, unmeasured: nat, flags: seq<Flag>)

  datatype Fault = NoCloses

  // --------------------------------------------------------------------- observations

  /** Ends of the bars that open at or after `begins` and end by `close`. */
  function BarEnds(begins: int, close: int): seq<int>
    decreases close - begins
  {
    if begins + BAR <= close then [begins + BAR] + BarEnds(begins + BAR, close) else []
  }

  function DayEnds(c: Calendar, entry: int, day: int): seq<int>
  {
    var s := SessionOn(c, day);
    if s == None then []
    else BarEnds(if day == entry then day * DAY + FILL_AT else s.value.openAt, s.value.closeAt)
  }

  /** Every observation from the entry session to `last`. */
  function ObservationsOf(c: Calendar, entry: int, last: int): seq<int>
    decreases last - entry
  {
    if last < entry then [] else ObservationsOf(c, entry, last - 1) + DayEnds(c, entry, last)
  }

  method SessionBars(begins: int, close: int) returns (out: seq<int>)
    ensures out == BarEnds(begins, close)
  {
    out := [];
    var at := begins;
    while at + BAR <= close
      invariant BarEnds(begins, close) == out + BarEnds(at, close)
      decreases close - at
    {
      out := out + [at + BAR];
      at := at + BAR;
    }
  }

  method Observations(c: Calendar, entry: int, last: int) returns (out: seq<int>)
    ensures out == ObservationsOf(c, entry, last)
  {
    out := [];
    var day := entry;
    while day <= last
      invariant entry <= day && (day <= last + 1 || day == entry)
      invariant out == ObservationsOf(c, entry, day - 1)
    {
      hide SessionOn, BarEnds, DayOf;
      Noon(day);
      var session := SessionFor(c, day * DAY + 720);
      if session.Some? {
        var ends := SessionBars(if day == entry then day * DAY + FILL_AT else session.value.openAt,
                               session.value.closeAt);
        out := out + ends;
      }
      day := day + 1;
    }
  }

  lemma Noon(day: int)
    ensures DayOf(day * DAY + 720) == day
  {
  }

  lemma {:induction false} BarEndsInside(begins: int, close: int)
    ensures forall i :: 0 <= i < |BarEnds(begins, close)| ==> begins < BarEnds(begins, close)[i] <= close
    ensures forall i, j :: 0 <= i < j < |BarEnds(begins, close)| ==>
              BarEnds(begins, close)[i] < BarEnds(begins, close)[j]
    decreases close - begins
  {
    if begins + BAR <= close { BarEndsInside(begins + BAR, close); }
  }

  lemma DayEndsOnDay(c: Calendar, entry: int, day: int)
    requires IsCalendar(c)
    ensures forall i :: 0 <= i < |DayEnds(c, entry, day)| ==> DayOf(DayEnds(c, entry, day)[i]) == day
    ensures forall i, j :: 0 <= i < j < |DayEnds(c, entry, day)| ==>
              DayEnds(c, entry, day)[i] < DayEnds(c, entry, day)[j]
  {
    var s := SessionOn(c, day);
    if s.Some? {
      var begins := if day == entry then day * DAY + FILL_AT else s.value.openAt;
      BarEndsInside(begins, s.value.closeAt);
      assert day * DAY <= begins;
    }
  }

  /** Observations run forward in time and cover only the days asked for. */
  lemma {:induction false} ObservationsAscend(c: Calendar, entry: int, last: int)
    requires IsCalendar(c)
    ensures forall i :: 0 <= i < |ObservationsOf(c, entry, last)| ==>
              entry <= DayOf(ObservationsOf(c, entry, last)[i]) <= last
    ensures forall i, j :: 0 <= i < j < |ObservationsOf(c, entry, last)| ==>
      ObservationsOf(c, entry, last)[i] < ObservationsOf(c, entry, last)[j]
    decreases last - entry
  {
    if entry <= last {
      ObservationsAscend(c, entry, last - 1);
      DayEndsOnDay(c, entry, last);
    }
  }

  /** A longer window only adds observations after the shorter one's. */
  lemma {:induction false} ObservationsExtend(c: Calendar, entry: int, short: int, long: int)
    requires short <= long
    ensures ObservationsOf(c, entry, short) <= ObservationsOf(c, entry, long)
    decreases long - short
  {
    if short < long { ObservationsExtend(c, entry, short, long - 1); }
  }

  lemma {:induction false} BarEndsExactly(begins: int, close: int, m: int)
    ensures m in BarEnds(begins, close) <==> exists k :: k >= 1 && m == begins + 5 * k && m <= close
    decreases close - begins
  {
    if begins + BAR <= close {
      BarEndsExactly(begins + BAR, close, m);
      if k :| k >= 1 && m == begins + 5 * k && m <= close {
        if k > 1 { assert k - 1 >= 1 && m == begins + BAR + 5 * (k - 1); }
      }
      if m in BarEnds(begins + BAR, close) {
        var k :| k >= 1 && m == begins + BAR + 5 * k && m <= close;
        assert k + 1 >= 1 && m == begins + 5 * (k + 1);
      }
      if m == begins + BAR { assert m == begins + 5 * 1; }
    }
  }

  /** A five-minute mark of a session, counted from five past ten on the entry day and from the open on any other. */
  predicate OnTheGrid(s: Session, entry: int, m: int)
  {
    var begins := if s.day == entry then s.day * 1440 + 605 else s.openAt;
    m > begins && (m - begins) % 5 == 0 && m <= s.closeAt
  }

  predicate MarkedBetween(c: Calendar, entry: int, first: int, last: int, m: int)
  {
    exists s :: s in c && first <= s.day <= last && OnTheGrid(s, entry, m)
  }

  lemma OneDayMore(c: Calendar, entry: int, last: int, m: int)
    requires entry <= last
    ensures MarkedBetween(c, entry, entry, last, m) <==>
              MarkedBetween(c, entry, entry, last - 1, m) || MarkedBetween(c, entry, last, last, m)
  {
    hide OnTheGrid;
  }

  /** The observations are exactly the marks of the sessions from the entry day to the last, after the fill. */
  lemma {:induction false} ObservationsExactly(c: Calendar, entry: int, last: int, m: int)
    requires IsCalendar(c)
    ensures m in ObservationsOf(c, entry, last) <==> MarkedBetween(c, entry, entry, last, m)
    decreases last - entry
  {
    hide IsCalendar;
    if entry <= last {
      ObservationsExactly(c, entry, last - 1, m);
      DayEndsExactly(c, entry, last, m);
      OneDayMore(c, entry, last, m);
      hide DayEnds, MarkedBetween;
    }
  }

  lemma DayEndsExactly(c: Calendar, entry: int, day: int, m: int)
    requires IsCalendar(c)
    ensures m in DayEnds(c, entry, day) <==> MarkedBetween(c, entry, day, day, m)
  {
    var found := SessionOn(c, day);
    if found.Some? {
      OnlySession(c, found.value, entry, m);
      EndsOnGrid(found.value, entry, m);
      hide OnTheGrid, BarEnds, MarkedBetween, SessionOn, IsCalendar;
    }
  }

  lemma OnlySession(c: Calendar, s: Session, entry: int, m: int)
    requires IsCalendar(c) && s in c
    ensures MarkedBetween(c, entry, s.day, s.day, m) <==> OnTheGrid(s, entry, m)
  {
    hide OnTheGrid;
    forall t | t in c && t.day == s.day ensures t == s {
      SessionOnIts(c, t);
      SessionOnIts(c, s);
    }
  }

  lemma EndsOnGrid(s: Session, entry: int, m: int)
    ensures m in BarEnds(if s.day == entry then s.day * DAY + FILL_AT else s.openAt, s.closeAt) <==>
              OnTheGrid(s, entry, m)
  {
    var begins := if s.day == entry then s.day * DAY + FILL_AT else s.openAt;
    BarEndsExactly(begins, s.closeAt, m);
    GridSteps(begins, s.closeAt, m);
    hide BarEnds;
  }

  lemma GridSteps(begins: int, close: int, m: int)
    ensures (exists k :: k >= 1 && m == begins + 5 * k && m <= close) <==>
              m > begins && (m - begins) % 5 == 0 && m <= close
  {
    if m > begins && (m - begins) % 5 == 0 { assert m == begins + 5 * ((m - begins) / 5); }
  }

  // -------------------------------------------------------------------- leg prices

  predicate Traded(bars: Bars, end: int)
  {
    end - BAR in bars && bars[end - BAR].volume >= 1
  }

  /** The newest traded bar ending at `end` or before, at most fifteen minutes before the moment. */
  function LatestFrom(bars: Bars, moment: int, end: int): Option<(int, real)>
    decreases end - (moment - MAX_AGE) + BAR
  {
    if moment - end > MAX_AGE then None
    else if Traded(bars, end) then Some((end, bars[end - BAR].price))
    else LatestFrom(bars, moment, end - BAR)
  }

  method Latest(bars: Bars, moment: int) returns (r: Option<(int, real)>)
    ensures r == LatestFrom(bars, moment, moment)
  {
    var end := moment;
    while moment - end <= MAX_AGE
      invariant LatestFrom(bars, moment, moment) == LatestFrom(bars, moment, end)
      decreases end - (moment - MAX_AGE) + BAR
    {
      var begins := end - BAR;
      if begins in bars && bars[begins].volume >= 1 { return Some((end, bars[begins].price)); }
      end := end - BAR;
    }
    r := None;
  }

  /** It reads nothing after the moment, nothing too old, and the newest of what is left. */
  lemma {:induction false} LatestIsNewest(bars: Bars, moment: int, end: int)
    requires end <= moment && (moment - end) % BAR == 0
    ensures var r := LatestFrom(bars, moment, end);
      && (r.Some? ==> moment - MAX_AGE <= r.value.0 <= end && Traded(bars, r.value.0)
                      && forall e :: r.value.0 < e <= end && (moment - e) % BAR == 0 ==> !Traded(bars, e))
      && (r == None ==> forall e :: moment - MAX_AGE <= e <= end && (moment - e) % BAR == 0 ==> !Traded(bars, e))
    decreases end - (moment - MAX_AGE) + BAR
  {
    if moment - end <= MAX_AGE && !Traded(bars, end) {
      LatestIsNewest(bars, moment, end - BAR);
      forall e | end - BAR < e < end && Traded(bars, e) ensures (moment - e) % BAR != 0 {
      }
    }
  }

  function ValueAt(long: Bars, short: Bars, moment: int): Option<real>
  {
    var a, b := LatestFrom(long, moment, moment), LatestFrom(short, moment, moment);
    if a == None || b == None then None
    else
      var gap := if a.value.0 < b.value.0 then b.value.0 - a.value.0 else a.value.0 - b.value.0;
      if gap > MAX_LEG_GAP then None else Some(a.value.1 - b.value.1)
  }

  function TradedIn(long: Bars, short: Bars, moment: int): Option<real>
  {
    if Traded(long, moment) && Traded(short, moment) then Some(long[moment - BAR].price - short[moment - BAR].price)
    else None
  }

  // ------------------------------------------------------------- the policy's inputs

  function Days(closes: seq<DailyClose>): seq<int>
  {
    seq(|closes|, i requires 0 <= i < |closes| => closes[i].day)
  }

  ghost predicate InOrder(closes: seq<DailyClose>)
  {
    forall i, j :: 0 <= i < j < |closes| ==> closes[i].day < closes[j].day
  }

  /** How many closes belong to sessions before the day. */
  function Earlier(closes: seq<DailyClose>, day: int): (n: nat)
    requires InOrder(closes)
    ensures n <= |closes|
    ensures forall i :: 0 <= i < |closes| ==> (i < n <==> closes[i].day < day)
  {
    assert forall i :: 0 <= i < |closes| ==> Days(closes)[i] == closes[i].day;
    var n := BisectLeft(Days(closes), day);
    assert forall i :: 0 <= i < |closes| ==> (i < n <==> Passed(Days(closes)[i], day, false));
    n
  }

  /** `sessions[bisect_left(sessions, today) - 1]`: with nothing earlier, index -1 is the last close of all. */
  function PreviousClose(closes: seq<DailyClose>, today: int): real
    requires InOrder(closes) && closes != []
  {
    var n := Earlier(closes, today);
    if n > 0 then closes[n - 1].close else closes[|closes| - 1].close
  }

  function Debit(e: Entry, k: Case): real
  {
    e.fillReference + Friction(k)
  }

  function Held(c: Calendar, e: Entry, moment: int): nat
    requires IsCalendar(c)
  {
    CompletedBetween(c, e.day * DAY + FILL_AT, moment - 1)
  }

  function InputsAt(e: Entry, k: Case, long: Bars, short: Bars, c: Calendar, closes: seq<DailyClose>,
                    moment: int): Inputs
    requires IsCalendar(c) && InOrder(closes) && closes != []
  {
    var raw := ValueAt(long, short, moment);
    Inputs(Bullish, Debit(e, k), e.width, 1, e.expiration - DayOf(moment),
           PreviousClose(closes, DayOf(moment)), CompletedDailyClose,
           Some(Invalidation(e.invalidation, Bullish, CompletedDailyClose)),
           if raw == None then None else Some(raw.value - Friction(k)), Held(c, e, moment))
  }

  /** The policy's answer at a moment. The rule is the position's own, so it never raises. */
  function DecisionAt(e: Entry, k: Case, p: Path, c: Calendar, closes: seq<DailyClose>, moment: int): ExitDecision
    requires IsCalendar(c) && InOrder(closes) && closes != []
  {
    EvaluateExit(InputsAt(e, k, p.long, p.short, c, closes, moment)).value
  }

  // --------------------------------------------------------------------- specification

  predicate ClosesAt(e: Entry, k: Case, p: Path, c: Calendar, closes: seq<DailyClose>, moment: int)
    requires IsCalendar(c) && InOrder(closes) && closes != []
  {
    DecisionAt(e, k, p, c, closes, moment).shouldClose
  }

  /** The first index from `from` on whose moment satisfies `stop`; the number of moments when none does. */
  function FirstFrom(moments: seq<int>, from: nat, stop: int -> bool): (i: nat)
    requires from <= |moments|
    ensures from <= i <= |moments|
    ensures i < |moments| ==> stop(moments[i])
    ensures forall j :: from <= j < i ==> !stop(moments[j])
    decreases |moments| - from
  {
    if from == |moments| || stop(moments[from]) then from else FirstFrom(moments, from + 1, stop)
  }

  /** The first observation at which the policy closes. */
  function TriggerIndex(e: Entry, k: Case, p: Path, c: Calendar, closes: seq<DailyClose>, moments: seq<int>): nat
    requires IsCalendar(c) && InOrder(closes) && closes != []
  {
    FirstFrom(moments, 0, m => ClosesAt(e, k, p, c, closes, m))
  }

  /** The first moment after the trigger in whose bar both legs traded. */
  function ExitIndex(p: Path, moments: seq<int>, from: nat): nat
    requires from <= |moments|
  {
    FirstFrom(moments, from, m => TradedIn(p.long, p.short, m).Some?)
  }

  function UnmeasuredIn(p: Path, moments: seq<int>): nat
  {
    if moments == [] then 0
    else UnmeasuredIn(p, moments[..|moments| - 1])
         + (if ValueAt(p.long, p.short, moments[|moments| - 1]) == None then 1 else 0)
  }

  function EntryFlags(e: Entry, k: Case): seq<Flag>
  {
    if 0.0 < Debit(e, k) < e.width then [] else [EntryOutsideWidth]
  }

  function ExitFlags(e: Entry, price: real): seq<Flag>
  {
    if 0.0 <= price <= e.width then [] else [ExitOutsideWidth]
  }

  function Base(e: Entry, k: Case): Trade
  {
    Trade(e, k, Debit(e, k), NoPath, None, None, None, None, None, None, 0, EntryFlags(e, k))
  }

  function Triggered(e: Entry, k: Case, trigger: Trigger, moment: int, held: nat, unmeasured: nat): Trade
  {
    Base(e, k).(status := NoExitFill, trigger := Some(trigger), triggeredAt := Some(moment),
                sessionsHeld := Some(held), unmeasured := unmeasured)
  }

  /** The exit at a moment both legs traded: the price less friction, against the debit. */
  function Filled(t: Trade, price: real, moment: int): Trade
  {
    t.(status := Closed, exitedAt := Some(moment), exitValue := Some(price - Friction(t.kase)),
       result := Some((price - Friction(t.kase) - t.entryDebit) * MULTIPLIER),
       flags := EntryFlags(t.entry, t.kase) + ExitFlags(t.entry, price))
  }

  /** The trade a path gives, said by its trigger and exit indices. */
  function TradeOf(e: Entry, k: Case, p: Path, c: Calendar, closes: seq<DailyClose>, moments: seq<int>): Trade
    requires IsCalendar(c) && InOrder(closes) && closes != []
  {
    var i := TriggerIndex(e, k, p, c, closes, moments);
    if i == |moments| then Base(e, k).(status := NoTrigger, unmeasured := UnmeasuredIn(p, moments))
    else
      ClosedOut(p, moments, i, Triggered(e, k, DecisionAt(e, k, p, c, closes, moments[i]).trigger, moments[i],
                                         Held(c, e, moments[i]), UnmeasuredIn(p, moments[..i + 1])))
  }

  /** A triggered trade takes its exit at the next moment both legs traded, if there is one. */
  function ClosedOut(p: Path, moments: seq<int>, i: nat, triggered: Trade): Trade
    requires i < |moments|
  {
    var j := ExitIndex(p, moments, i + 1);
    if j == |moments| then triggered
    else Filled(triggered, TradedIn(p.long, p.short, moments[j]).value, moments[j])
  }

  /** The second loop: every later moment until one where both legs traded. */
  method CloseOut(p: Path, moments: seq<int>, i: nat, triggered: Trade) returns (t: Trade)
    requires i < |moments|
    ensures t == ClosedOut(p, moments, i, triggered)
  {
    hide TradedIn, Filled;
    for j := i + 1 to |moments|
      invariant ExitIndex(p, moments, i + 1) == ExitIndex(p, moments, j)
    {
      var price := TradedIn(p.long, p.short, moments[j]);
      if price == None { continue; }
      return Filled(triggered, price.value, moments[j]);
    }
    t := triggered;
  }

  /** The first loop: every moment until the policy closes, counting those without a value. */
  method FindTrigger(e: Entry, k: Case, p: Path, c: Calendar, closes: seq<DailyClose>, moments: seq<int>)
    returns (i: nat, unmeasured: nat)
    requires IsCalendar(c) && InOrder(closes) && closes != []
    ensures i == TriggerIndex(e, k, p, c, closes, moments) <= |moments|
    ensures unmeasured == UnmeasuredIn(p, if i < |moments| then moments[..i + 1] else moments)
  {
    hide DecisionAt, ValueAt;
    unmeasured := 0;
    for n := 0 to |moments|
      invariant TriggerIndex(e, k, p, c, closes, moments) >= n
      invariant unmeasured == UnmeasuredIn(p, moments[..n])
    {
      assert moments[..n + 1][..n] == moments[..n];
      if ValueAt(p.long, p.short, moments[n]) == None { unmeasured := unmeasured + 1; }
      if ClosesAt(e, k, p, c, closes, moments[n]) { return n, unmeasured; }
    }
    assert moments[..|moments|] == moments;
    i := |moments|;
  }

  method Simulate(e: Entry, k: Case, path: Option<Path>, c: Calendar, closes: seq<DailyClose>)
    returns (r: Result<Trade, Fault>)
    requires IsCalendar(c) && InOrder(closes)
    ensures path == None ==> r == Success(Base(e, k))
    ensures path.Some? ==> var moments := ObservationsOf(c, e.day, path.value.last);
      r == if closes == [] && moments != [] then Failure(NoCloses)
           else if closes == [] then Success(Base(e, k).(status := NoTrigger))
           else Success(TradeOf(e, k, path.value, c, closes, moments))
  {
    hide DecisionAt, ValueAt, CompletedBetween, FirstFrom, ClosedOut, Triggered;
    if path == None { return Success(Base(e, k)); }
    var p := path.value;
    var moments := Observations(c, e.day, p.last);
    if closes == [] {
      return if moments == [] then Success(Base(e, k).(status := NoTrigger)) else Failure(NoCloses);
    }
    var i, unmeasured := FindTrigger(e, k, p, c, closes, moments);
    if i == |moments| { return Success(Base(e, k).(status := NoTrigger, unmeasured := unmeasured)); }
    var decision := DecisionAt(e, k, p, c, closes, moments[i]);
    var t := CloseOut(p, moments, i,
                      Triggered(e, k, decision.trigger, moments[i], Held(c, e, moments[i]), unmeasured));
    r := Success(t);
  }

  // ------------------------------------------------------------------------ causality

  /** The two paths carry the same bars up to the moment. */
  ghost predicate SameBars(a: Bars, b: Bars, until: int)
  {
    forall t: int :: t + BAR <= until ==> (t in a <==> t in b) && (t in a ==> a[t] == b[t])
  }

  /** The two lists carry the same closes for sessions before the day, at least one of them before the entry. */
  ghost predicate SameCloses(x: seq<DailyClose>, y: seq<DailyClose>, entry: int, day: int)
    requires InOrder(x) && InOrder(y)
  {
    && Earlier(x, day) == Earlier(y, day)
    && x[..Earlier(x, day)] == y[..Earlier(y, day)]
    && Earlier(x, entry) > 0
  }

  lemma {:induction false} LatestIsCausal(a: Bars, b: Bars, moment: int, end: int, until: int)
    requires SameBars(a, b, until) && end <= until
    ensures LatestFrom(a, moment, end) == LatestFrom(b, moment, end)
    decreases end - (moment - MAX_AGE) + BAR
  {
    if moment - end <= MAX_AGE {
      assert Traded(a, end) <==> Traded(b, end);
      LatestIsCausal(a, b, moment, end - BAR, until);
    }
  }

  lemma PricesAreCausal(p: Path, q: Path, moment: int, until: int)
    requires SameBars(p.long, q.long, until) && SameBars(p.short, q.short, until) && moment <= until
    ensures ValueAt(p.long, p.short, moment) == ValueAt(q.long, q.short, moment)
    ensures TradedIn(p.long, p.short, moment) == TradedIn(q.long, q.short, moment)
  {
    LatestIsCausal(p.long, q.long, moment, moment, until);
    LatestIsCausal(p.short, q.short, moment, moment, until);
  }

  lemma PreviousCloseIsCausal(x: seq<DailyClose>, y: seq<DailyClose>, entry: int, today: int, day: int)
    requires InOrder(x) && InOrder(y) && SameCloses(x, y, entry, day) && entry <= today <= day
    ensures x != [] && y != [] && PreviousClose(x, today) == PreviousClose(y, today)
  {
    var n, m := Earlier(x, today), Earlier(y, today);
    var d := Earlier(x, day);
    assert forall i :: 0 <= i < d ==> x[i] == x[..d][i] == y[..d][i] == y[i];
    assert x[0].day < entry;
    if n > 0 { assert x[n - 1].day < day; }
    if m > 0 { assert y[m - 1].day < day; }
    assert n == m;
  }

  lemma DecisionIsCausal(e: Entry, k: Case, p: Path, q: Path, c: Calendar, x: seq<DailyClose>, y: seq<DailyClose>,
                         moment: int, until: int)
    requires IsCalendar(c) && InOrder(x) && InOrder(y)
    requires SameBars(p.long, q.long, until) && SameBars(p.short, q.short, until)
    requires SameCloses(x, y, e.day, DayOf(until))
    requires e.day <= DayOf(moment) && moment <= until
    ensures x != [] && y != []
    ensures DecisionAt(e, k, p, c, x, moment) == DecisionAt(e, k, q, c, y, moment)
  {
    hide EvaluateExit;
    PricesAreCausal(p, q, moment, until);
    PreviousCloseIsCausal(x, y, e.day, DayOf(moment), DayOf(until));
  }

  lemma FirstUnique(moments: seq<int>, from: nat, stop: int -> bool, i: nat)
    requires from <= i < |moments| && stop(moments[i])
    requires forall j :: from <= j < i ==> !stop(moments[j])
    ensures FirstFrom(moments, from, stop) == i
  {
  }

  lemma {:induction false} UnmeasuredIsCausal(p: Path, q: Path, moments: seq<int>, until: int)
    requires SameBars(p.long, q.long, until) && SameBars(p.short, q.short, until)
    requires forall i :: 0 <= i < |moments| ==> moments[i] <= until
    ensures UnmeasuredIn(p, moments) == UnmeasuredIn(q, moments)
  {
    if moments != [] {
      UnmeasuredIsCausal(p, q, moments[..|moments| - 1], until);
      PricesAreCausal(p, q, moments[|moments| - 1], until);
    }
  }

  /** Over one list of moments, the trade up to its exit depends on nothing after it. */
  lemma TradeIsCausal(e: Entry, k: Case, p: Path, q: Path, c: Calendar, x: seq<DailyClose>, y: seq<DailyClose>,
                      moments: seq<int>, more: seq<int>, until: int)
    requires IsCalendar(c) && InOrder(x) && InOrder(y) && x != [] && y != []
    requires SameBars(p.long, q.long, until) && SameBars(p.short, q.short, until)
    requires SameCloses(x, y, e.day, DayOf(until))
    requires forall i :: 0 <= i < |moments| ==> e.day <= DayOf(moments[i])
    requires forall i, j :: 0 <= i < j < |moments| ==> moments[i] < moments[j]
    requires TradeOf(e, k, p, c, x, moments).status == Closed
    requires TradeOf(e, k, p, c, x, moments).exitedAt == Some(until)
    requires forall n :: 0 <= n < |moments| && moments[n] <= until ==> n < |more| && more[n] == moments[n]
    ensures TradeOf(e, k, q, c, y, more) == TradeOf(e, k, p, c, x, moments)
  {
    hide DecisionAt, TradedIn, Held, UnmeasuredIn, SameBars, SameCloses, InOrder, IsCalendar, EntryFlags, ExitFlags;
    hide Debit, ClosesAt;
    var i := TriggerIndex(e, k, p, c, x, moments);
    assert i < |moments|;
    var j := ExitIndex(p, moments, i + 1);
    assert j < |moments| && moments[j] == until;
    SameIndices(e, k, p, q, c, x, y, moments, more, until, i, j);
    hide DecisionAt, TradedIn, Held, Filled, Triggered, UnmeasuredIn;
    assert more[..i + 1] == moments[..i + 1];
    UnmeasuredIsCausal(p, q, moments[..i + 1], until);
    DecisionIsCausal(e, k, p, q, c, x, y, moments[i], until);
    PricesAreCausal(p, q, until, until);
  }

  lemma SameIndices(e: Entry, k: Case, p: Path, q: Path, c: Calendar, x: seq<DailyClose>, y: seq<DailyClose>,
                    moments: seq<int>, more: seq<int>, until: int, i: nat, j: nat)
    requires IsCalendar(c) && InOrder(x) && InOrder(y) && x != [] && y != []
    requires SameBars(p.long, q.long, until) && SameBars(p.short, q.short, until)
    requires SameCloses(x, y, e.day, DayOf(until))
    requires forall n :: 0 <= n < |moments| ==> e.day <= DayOf(moments[n])
    requires forall m, n :: 0 <= m < n < |moments| ==> moments[m] < moments[n]
    requires i == TriggerIndex(e, k, p, c, x, moments) < |moments|
    requires j == ExitIndex(p, moments, i + 1) < |moments| && moments[j] == until
    requires forall n :: 0 <= n < |moments| && moments[n] <= until ==> n < |more| && more[n] == moments[n]
    ensures j < |more| && moments[..j + 1] == more[..j + 1]
    ensures TriggerIndex(e, k, q, c, y, more) == i && ExitIndex(q, more, i + 1) == j
  {
    hide SameBars, SameCloses, InOrder, IsCalendar, ClosesAt, TradedIn;
    forall n | 0 <= n <= j ensures n < |more| && more[n] == moments[n] && moments[n] <= until {
      assert moments[n] <= until;
    }
    SameTrigger(e, k, p, q, c, x, y, moments, more, until, i, j);
    SameExit(p, q, moments, more, until, i, j);
  }

  lemma SameTrigger(e: Entry, k: Case, p: Path, q: Path, c: Calendar, x: seq<DailyClose>, y: seq<DailyClose>,
                    moments: seq<int>, more: seq<int>, until: int, i: nat, j: nat)
    requires IsCalendar(c) && InOrder(x) && InOrder(y) && x != [] && y != []
    requires SameBars(p.long, q.long, until) && SameBars(p.short, q.short, until)
    requires SameCloses(x, y, e.day, DayOf(until))
    requires forall n :: 0 <= n < |moments| ==> e.day <= DayOf(moments[n])
    requires i == TriggerIndex(e, k, p, c, x, moments) && i <= j < |moments|
    requires forall n :: 0 <= n <= j ==> n < |more| && more[n] == moments[n] && moments[n] <= until
    ensures TriggerIndex(e, k, q, c, y, more) == i
  {
    TriggerIsFirst(e, k, p, c, x, moments);
    hide DecisionAt, ValueAt, SameCloses, FirstFrom, SameBars, InOrder, IsCalendar;
    forall n | 0 <= n <= i ensures ClosesAt(e, k, q, c, y, more[n]) <==> n == i {
      DecisionIsCausal(e, k, p, q, c, x, y, moments[n], until);
    }
    FirstUnique(more, 0, m => ClosesAt(e, k, q, c, y, m), i);
  }

  lemma SameExit(p: Path, q: Path, moments: seq<int>, more: seq<int>, until: int, i: nat, j: nat)
    requires SameBars(p.long, q.long, until) && SameBars(p.short, q.short, until)
    requires i < j < |moments| && j == ExitIndex(p, moments, i + 1)
    requires forall n :: 0 <= n <= j ==> n < |more| && more[n] == moments[n] && moments[n] <= until
    ensures ExitIndex(q, more, i + 1) == j
  {
    ExitIsFirst(p, moments, i + 1);
    hide TradedIn, FirstFrom, SameBars;
    forall n | i < n <= j ensures TradedIn(q.long, q.short, more[n]).Some? <==> n == j {
      PricesAreCausal(p, q, moments[n], until);
    }
    FirstUnique(more, i + 1, m => TradedIn(q.long, q.short, m).Some?, j);
  }

  /** Every moment up to a day of the window is at the same index in any window that reaches that day. */
  lemma WindowsShareMoments(c: Calendar, entry: int, p: int, q: int, until: int, n: nat)
    requires IsCalendar(c)
    requires DayOf(until) <= p && DayOf(until) <= q
    requires n < |ObservationsOf(c, entry, p)| && ObservationsOf(c, entry, p)[n] <= until
    ensures n < |ObservationsOf(c, entry, q)| && ObservationsOf(c, entry, q)[n] == ObservationsOf(c, entry, p)[n]
  {
    var day := DayOf(until);
    var shared, all := ObservationsOf(c, entry, day), ObservationsOf(c, entry, p);
    ObservationsExtend(c, entry, day, p);
    ObservationsExtend(c, entry, day, q);
    assert n < |shared| by {
      if n >= |shared| { LaterDays(c, entry, day, p, n); }
    }
    assert shared[n] == all[n];
  }

  /** What a longer window adds lies on later days. */
  lemma {:induction false} LaterDays(c: Calendar, entry: int, day: int, last: int, n: nat)
    requires IsCalendar(c) && day <= last
    requires |ObservationsOf(c, entry, day)| <= n < |ObservationsOf(c, entry, last)|
    ensures DayOf(ObservationsOf(c, entry, last)[n]) > day
    decreases last - day
  {
    if day < last {
      DayEndsOnDay(c, entry, last);
      var before, ends := ObservationsOf(c, entry, last - 1), DayEnds(c, entry, last);
      assert last < entry || ObservationsOf(c, entry, last) == before + ends;
      hide DayEnds, DayOf, ObservationsOf;
      if n < |ObservationsOf(c, entry, last - 1)| { LaterDays(c, entry, day, last - 1, n); }
    }
  }

  /**
    A closed trade is causal: paths that agree on every bar ending by its exit, in
    windows that both reach that day, with the same closes for earlier sessions and at
    least one of them before the entry, give the identical trade.
  */
  lemma ClosedTradeIsCausal(e: Entry, k: Case, p: Path, q: Path, c: Calendar, x: seq<DailyClose>, y: seq<DailyClose>,
                            until: int)
    requires IsCalendar(c) && InOrder(x) && InOrder(y) && x != [] && y != []
    requires SameBars(p.long, q.long, until) && SameBars(p.short, q.short, until)
    requires SameCloses(x, y, e.day, DayOf(until))
    requires DayOf(until) <= p.last && DayOf(until) <= q.last
    requires TradeOf(e, k, p, c, x, ObservationsOf(c, e.day, p.last)).status == Closed
    requires TradeOf(e, k, p, c, x, ObservationsOf(c, e.day, p.last)).exitedAt == Some(until)
    ensures TradeOf(e, k, q, c, y, ObservationsOf(c, e.day, q.last)) ==
              TradeOf(e, k, p, c, x, ObservationsOf(c, e.day, p.last))
  {
    hide TradeOf, SameBars, SameCloses;
    var moments, more := ObservationsOf(c, e.day, p.last), ObservationsOf(c, e.day, q.last);
    ObservationsAscend(c, e.day, p.last);
    forall n | 0 <= n < |moments| && moments[n] <= until ensures n < |more| && more[n] == moments[n] {
      WindowsShareMoments(c, e.day, p.last, q.last, until, n);
    }
    TradeIsCausal(e, k, p, q, c, x, y, moments, more, until);
  }

  /**
    The trigger is the first observation at which the policy closes,
    and the exit the first later one both legs traded in.
  */
  lemma ClosedTradeShape(e: Entry, k: Case, p: Path, c: Calendar, closes: seq<DailyClose>, moments: seq<int>)
    returns (i: nat, j: nat)
    requires IsCalendar(c) && InOrder(closes) && closes != []
    requires TradeOf(e, k, p, c, closes, moments).status == Closed
    ensures i < j < |moments|
    ensures forall n :: 0 <= n <= i ==> (ClosesAt(e, k, p, c, closes, moments[n]) <==> n == i)
    ensures forall n :: i < n <= j ==> (TradedIn(p.long, p.short, moments[n]).Some? <==> n == j)
    ensures var t := TradeOf(e, k, p, c, closes, moments);
      && t.triggeredAt == Some(moments[i]) && t.exitedAt == Some(moments[j])
      && t.trigger == Some(DecisionAt(e, k, p, c, closes, moments[i]).trigger)
      && t.exitValue == Some(TradedIn(p.long, p.short, moments[j]).value - Friction(k))
      && t.result == Some((t.exitValue.value - t.entryDebit) * MULTIPLIER)
  {
    hide DecisionAt, TradedIn, Held, FirstFrom, UnmeasuredIn, Debit, EntryFlags, ExitFlags, InOrder, IsCalendar;
    hide ClosesAt;
    i := TriggerIndex(e, k, p, c, closes, moments);
    TriggerIsFirst(e, k, p, c, closes, moments);
    j := ExitIndex(p, moments, i + 1);
    ExitIsFirst(p, moments, i + 1);
  }

  lemma TriggerIsFirst(e: Entry, k: Case, p: Path, c: Calendar, closes: seq<DailyClose>, moments: seq<int>)
    requires IsCalendar(c) && InOrder(closes) && closes != []
    ensures var i := TriggerIndex(e, k, p, c, closes, moments);
      forall n :: 0 <= n <= i && n < |moments| ==> (ClosesAt(e, k, p, c, closes, moments[n]) <==> n == i)
  {
    hide ClosesAt, FirstFrom, InOrder, IsCalendar;
    var i := TriggerIndex(e, k, p, c, closes, moments);
    assert forall n :: 0 <= n < i ==> !ClosesAt(e, k, p, c, closes, moments[n]);
  }

  lemma ExitIsFirst(p: Path, moments: seq<int>, from: nat)
    requires from <= |moments|
    ensures var j := ExitIndex(p, moments, from);
      forall n :: from <= n <= j && n < |moments| ==> (TradedIn(p.long, p.short, moments[n]).Some? <==> n == j)
  {
    hide TradedIn, FirstFrom;
    var j := ExitIndex(p, moments, from);
    assert forall n :: from <= n < j ==> TradedIn(p.long, p.short, moments[n]) == None;
  }

  /**
    Why a close before the entry is needed: with none, the source's index is -1 and the
    policy is judged on the last close of all, however far after the moment it lies.
  */
  lemma NoEarlierCloseReadsTheLast(e: Entry, k: Case, p: Path, c: Calendar, closes: seq<DailyClose>, moment: int)
    requires IsCalendar(c) && InOrder(closes) && closes != []
    requires closes[0].day >= DayOf(moment)
    requires e.expiration - DayOf(moment) > EXPIRY_GUARD_DTE
    ensures PreviousClose(closes, DayOf(moment)) == closes[|closes| - 1].close
    ensures DecisionAt(e, k, p, c, closes, moment).trigger == InvalidationBreached
      <==> closes[|closes| - 1].close <= e.invalidation
  {
    hide ValueAt, CompletedBetween, StopLevel, ProfitTarget;
    assert Earlier(closes, DayOf(moment)) == 0;
  }

  // ------------------------------------------------------------------- group contrasts

  /** A simulated trade as the contrast reads it: its case, its session's position, its arm. */
  datatype Booked = Booked(kase: Case, index: nat, arm: Bootstrap.Label, closed: bool, result: Option<real>)

  /** The last trade of the case booked at a position. */
  function LastAt(done: seq<Booked>, k: Case, i: int): (r: Option<Booked>)
    ensures r.Some? ==> r.value in done && r.value.kase == k && r.value.index == i
    ensures r == None ==> forall t :: t in done && t.kase == k ==> t.index != i
  {
    if done == [] then None
    else
      var last := done[|done| - 1];
      assert done == done[..|done| - 1] + [last];
      if last.kase == k && last.index == i then Some(last) else LastAt(done[..|done| - 1], k, i)
  }

  function ArmAt(done: seq<Booked>, k: Case, i: int): Bootstrap.Label
  {
    var t := LastAt(done, k, i);
    if t == None then Bootstrap.Gap else t.value.arm
  }

  function ResultAt(done: seq<Booked>, k: Case, i: int): Option<real>
  {
    var t := LastAt(done, k, i);
    if t == None || !t.value.closed then None else t.value.result
  }

  function Arms(done: seq<Booked>, k: Case, length: nat): (g: Bootstrap.Labels)
  {
    seq(length, i => ArmAt(done, k, i))
  }

  function Results(done: seq<Booked>, k: Case, length: nat): (v: Bootstrap.Values)
  {
    seq(length, i => ResultAt(done, k, i))
  }

  /** The interval of one contrast, read with the other arm first. */
  function Negated(c: Bootstrap.Contrast): Bootstrap.Contrast
  {
    c.(difference := Bootstrap.Negate(c.difference), low := Bootstrap.Negate(c.high), high := Bootstrap.Negate(c.low))
  }

  /**
    Breadth-vetoed minus Permitted, from a contrast that computes Permitted minus
    Vetoed. What it returns is the true contrast of the exchanged arms.
  */
  method Contrasts(done: seq<Booked>, length: nat, k: Case, block: int, replicates: seq<seq<int>>)
    returns (r: Result<Bootstrap.Contrast, Bootstrap.Fault>)
    requires forall t :: t in done ==> t.index < length
    requires Bootstrap.IsReplicates(length, block, replicates)
    ensures r.Failure? <==> replicates != [] && Bootstrap.StartsFault(length, block).Some?
    ensures r.Success? ==>
      var group, values := Arms(done, k, length), Results(done, k, length);
      var exchanged := Bootstrap.ContrastOf(Bootstrap.Swapped(group), values, block, replicates);
      && r.value.difference == exchanged.difference
      && r.value.low == exchanged.low && r.value.high == exchanged.high
      && r.value == Negated(Bootstrap.ContrastOf(group, values, block, replicates))
  {
    var group: seq<Bootstrap.Label> := seq(length, _ => Bootstrap.Gap);
    var values: seq<Option<real>> := seq(length, _ => None);
    for n := 0 to |done|
      invariant |group| == |values| == length
      invariant forall i :: 0 <= i < length ==> group[i] == ArmAt(done[..n], k, i)
      invariant forall i :: 0 <= i < length ==> values[i] == ResultAt(done[..n], k, i)
    {
      var t := done[n];
      assert done[..n + 1][..n] == done[..n];
      if t.kase != k { continue; }
      group := group[t.index := t.arm];
      values := values[t.index := if t.closed then t.result else None];
    }
    assert done[..|done|] == done;
    assert group == Arms(done, k, length) && values == Results(done, k, length);
    var c := Bootstrap.BlockContrast(group, values, block, replicates);
    if c.Failure? { return c; }
    Bootstrap.SwapContrast(group, values, block, replicates);
    r := Success(Negated(c.value));
  }

  // ------------------------------------------------------------ what a trade reads as

  lemma AfterTheFill(c: Calendar, entry: int, last: int, m: int)
    requires IsCalendar(c) && m in ObservationsOf(c, entry, last)
    ensures entry * 1440 + 605 < m
  {
    ObservationsExactly(c, entry, last, m);
    var s :| s in c && entry <= s.day <= last && OnTheGrid(s, entry, m);
    var i :| 0 <= i < |c| && c[i] == s;
    assert DayOf(s.openAt) == s.day;
    hide ObservationsOf;
  }

  lemma TradeOrder(e: Entry, k: Case, p: Path, c: Calendar, closes: seq<DailyClose>, moments: seq<int>)
    requires IsCalendar(c) && InOrder(closes) && closes != []
    requires forall i, j :: 0 <= i < j < |moments| ==> moments[i] < moments[j]
    ensures var t := TradeOf(e, k, p, c, closes, moments);
      && (t.triggeredAt.Some? ==> t.triggeredAt.value in moments)
      && (t.exitedAt.Some? ==> t.triggeredAt.Some? && t.triggeredAt.value < t.exitedAt.value)
  {
    hide DecisionAt, TradedIn, Held, UnmeasuredIn, IsCalendar, InOrder, EntryFlags, ExitFlags, Debit, ClosesAt;
  }

  /** No trade is triggered before its fill, and none closes before it is triggered. */
  lemma TradeTimes(e: Entry, k: Case, p: Path, c: Calendar, closes: seq<DailyClose>)
    requires IsCalendar(c) && InOrder(closes) && closes != []
    ensures var t := TradeOf(e, k, p, c, closes, ObservationsOf(c, e.day, p.last));
      && (t.triggeredAt.Some? ==> e.day * 1440 + 605 < t.triggeredAt.value)
      && (t.exitedAt.Some? ==> t.triggeredAt.Some? && t.triggeredAt.value < t.exitedAt.value)
  {
    var moments := ObservationsOf(c, e.day, p.last);
    ObservationsAscend(c, e.day, p.last);
    hide ObservationsOf, TradeOf, IsCalendar, InOrder;
    TradeOrder(e, k, p, c, closes, moments);
    var t := TradeOf(e, k, p, c, closes, moments);
    if t.triggeredAt.Some? { AfterTheFill(c, e.day, p.last, t.triggeredAt.value); }
  }

  /** The newest bar of the leg that traded and ended in the quarter hour up to the moment. */
  predicate NewestIn(bars: Bars, moment: int, end: int)
  {
    && moment - 15 <= end <= moment && (moment - end) % 5 == 0 && Printed(bars, end)
    && !exists later {:trigger Printed(bars, later)} ::
         end < later <= moment && (moment - later) % 5 == 0 && Printed(bars, later)
  }

  /** A bar that opened five minutes before the moment and in which at least one contract traded. */
  predicate Printed(bars: Bars, end: int)
  {
    end - 5 in bars && bars[end - 5].volume >= 1
  }

  lemma LatestReads(bars: Bars, moment: int, end: int)
    ensures NewestIn(bars, moment, end) <==>
              LatestFrom(bars, moment, moment).Some? && LatestFrom(bars, moment, moment).value.0 == end
    ensures NewestIn(bars, moment, end) ==> LatestFrom(bars, moment, moment) == Some((end, bars[end - 5].price))
  {
    LatestIsNewest(bars, moment, moment);
    LatestPrice(bars, moment, moment);
    assert forall m :: Printed(bars, m) <==> Traded(bars, m);
    hide LatestFrom, Printed, Traded;
  }

  lemma {:induction false} LatestPrice(bars: Bars, moment: int, end: int)
    requires end <= moment && (moment - end) % BAR == 0
    ensures var r := LatestFrom(bars, moment, end);
      r.Some? ==> (moment - r.value.0) % 5 == 0 && r.value.0 - 5 in bars && r.value.1 == bars[r.value.0 - 5].price
    decreases end - (moment - MAX_AGE) + BAR
  {
    if moment - end <= MAX_AGE && !Traded(bars, end) { LatestPrice(bars, moment, end - BAR); }
  }

  /** The spread's value is the long leg's newest price less the short one's, when the two are within ten minutes. */
  lemma ValueReads(long: Bars, short: Bars, moment: int)
    ensures ValueAt(long, short, moment).Some? <==>
      exists a, b :: NewestIn(long, moment, a) && NewestIn(short, moment, b) && -10 <= a - b <= 10
    ensures forall a, b :: NewestIn(long, moment, a) && NewestIn(short, moment, b) && -10 <= a - b <= 10 ==>
      ValueAt(long, short, moment) == Some(long[a - 5].price - short[b - 5].price)
  {
    var x, y := LatestFrom(long, moment, moment), LatestFrom(short, moment, moment);
    forall a ensures NewestIn(long, moment, a) <==> x.Some? && x.value.0 == a
      ensures NewestIn(long, moment, a) ==> x == Some((a, long[a - 5].price))
    {
      LatestReads(long, moment, a);
    }
    forall b ensures NewestIn(short, moment, b) <==> y.Some? && y.value.0 == b
      ensures NewestIn(short, moment, b) ==> y == Some((b, short[b - 5].price))
    {
      LatestReads(short, moment, b);
    }
    hide LatestFrom, NewestIn;
    if x.Some? && y.Some? { assert NewestIn(long, moment, x.value.0) && NewestIn(short, moment, y.value.0); }
  }

  /** Friction in each of the three cases. */
  predicate Costs(k: Case, friction: real)
  {
    friction == if k == Optimistic then 0.0 else if k == Central then 0.05 else 0.10
  }

  lemma LevelsOf(s: Inputs)
    ensures StopLevel(s) == Cents(s.entryDebit * 0.5)
    ensures ProfitTarget(s) == Cents(0.4 * s.entryDebit + 0.6 * s.width)
  {
    assert s.entryDebit + (s.width - s.entryDebit) * PROFIT_CAPTURE_FRACTION == 0.4 * s.entryDebit + 0.6 * s.width;
    hide Cents;
  }

  /** The last close before the day, when there is one. */
  predicate LastBefore(closes: seq<DailyClose>, day: int, i: int)
  {
    0 <= i < |closes| && closes[i].day < day && (i + 1 < |closes| ==> closes[i + 1].day >= day)
  }

  /**
    When the policy closes a trade at a moment: seven days to expiry, the last close of an
    earlier day at or below the rule's level, three sessions closed since the fill, or the
    spread's value less friction at the stop or the target of what was paid with friction.
  */
  lemma ClosesRead(e: Entry, k: Case, p: Path, c: Calendar, closes: seq<DailyClose>, m: int, f: real, i: int)
    requires IsCalendar(c) && InOrder(closes) && Costs(k, f) && LastBefore(closes, m / 1440, i)
    ensures ClosesAt(e, k, p, c, closes, m) <==>
      var value := ValueAt(p.long, p.short, m);
      var paid := e.fillReference + f;
      || e.expiration - m / 1440 <= 7
      || closes[i].close <= e.invalidation
      || |ClosedIn(c, e.day * 1440 + 605, m - 1)| >= 3
      || (value.Some? && (value.value - f <= Cents(paid * 0.5) || value.value - f >= Cents(0.4 * paid + 0.6 * e.width)))
  {
    var s := InputsAt(e, k, p.long, p.short, c, closes, m);
    InputsRead(e, k, p, c, closes, m, f, i);
    TriggersRead(s);
    LevelsOf(s);
    hide StopLevel, ProfitTarget, InputsAt, ValueAt, ClosedIn, Cents, InOrder, IsCalendar, EvaluateExit, RuleSaysOut;
  }

  /** What the policy is asked about at a moment. */
  lemma InputsRead(e: Entry, k: Case, p: Path, c: Calendar, closes: seq<DailyClose>, m: int, f: real, i: int)
    requires IsCalendar(c) && InOrder(closes) && Costs(k, f) && LastBefore(closes, m / 1440, i)
    ensures var s := InputsAt(e, k, p.long, p.short, c, closes, m);
      && s.dte == e.expiration - m / 1440 && s.entryDebit == e.fillReference + f && s.width == e.width
      && s.sessionsElapsed == |ClosedIn(c, e.day * 1440 + 605, m - 1)|
      && !Disagrees(s) && (RuleSaysOut(s) <==> closes[i].close <= e.invalidation)
      && var value := ValueAt(p.long, p.short, m);
         s.currentValue == if value.Some? then Some(value.value - f) else None
  {
    CompletedBetweenCounts(c, e.day * DAY + FILL_AT, m - 1);
    assert Earlier(closes, DayOf(m)) == i + 1;
    hide ValueAt, CompletedBetween, ClosedIn, Earlier, InOrder, IsCalendar;
  }

  /** The two legs' prices in the bar that ends at the moment. */
  predicate PrintedAt(p: Path, m: int, price: real)
  {
    Printed(p.long, m) && Printed(p.short, m) && price == p.long[m - 5].price - p.short[m - 5].price
  }

  lemma TradedReads(p: Path, m: int)
    requires TradedIn(p.long, p.short, m).Some?
    ensures PrintedAt(p, m, TradedIn(p.long, p.short, m).value)
  {
  }

  /**
    A closed trade's money: what the two legs printed in the bar of its exit, less what was
    paid for the spread and friction on both ways, for a hundred shares.
  */
  lemma ResultReads(e: Entry, k: Case, p: Path, c: Calendar, closes: seq<DailyClose>, moments: seq<int>, f: real)
    returns (price: real)
    requires IsCalendar(c) && InOrder(closes) && closes != [] && Costs(k, f)
    requires TradeOf(e, k, p, c, closes, moments).status == Closed
    ensures var t := TradeOf(e, k, p, c, closes, moments);
      && t.exitedAt.Some? && PrintedAt(p, t.exitedAt.value, price)
      && t.entryDebit == e.fillReference + f && t.exitValue == Some(price - f)
      && t.result == Some(100.0 * (price - e.fillReference - 2.0 * f))
      && (ExitOutsideWidth in t.flags <==> !(0.0 <= price <= e.width))
  {
    hide TradedIn, PrintedAt, DecisionAt, ClosesAt, IsCalendar, InOrder, TradeOf;
    var i, j := ClosedTradeShape(e, k, p, c, closes, moments);
    TradedReads(p, moments[j]);
    price := TradedIn(p.long, p.short, moments[j]).value;
    ClosedFlags(e, k, p, c, closes, moments, price);
  }

  lemma ClosedFlags(e: Entry, k: Case, p: Path, c: Calendar, closes: seq<DailyClose>, moments: seq<int>, price: real)
    requires IsCalendar(c) && InOrder(closes) && closes != []
    requires var t := TradeOf(e, k, p, c, closes, moments);
      t.status == Closed && t.exitValue == Some(price - Friction(k))
    ensures var t := TradeOf(e, k, p, c, closes, moments);
      t.entryDebit == Debit(e, k) && (ExitOutsideWidth in t.flags <==> !(0.0 <= price <= e.width))
  {
    hide DecisionAt, TradedIn, Held, UnmeasuredIn, IsCalendar, InOrder, Debit, ClosesAt, FirstFrom;
  }

  /** Whatever becomes of it, a trade flags an entry debit outside its width, and counts the sessions to its trigger. */
  lemma EveryTradeReads(e: Entry, k: Case, p: Path, c: Calendar, closes: seq<DailyClose>, moments: seq<int>, f: real)
    requires IsCalendar(c) && InOrder(closes) && closes != [] && Costs(k, f)
    ensures var t := TradeOf(e, k, p, c, closes, moments);
      && (EntryOutsideWidth in t.flags <==> !(0.0 < e.fillReference + f < e.width))
      && t.triggeredAt.Some? == t.trigger.Some? == t.sessionsHeld.Some? == (t.status != NoTrigger)
      && (t.triggeredAt.Some? ==> t.sessionsHeld == Some(|ClosedIn(c, e.day * 1440 + 605, t.triggeredAt.value - 1)|))
  {
    hide DecisionAt, UnmeasuredIn, IsCalendar, InOrder, ClosesAt, CompletedBetween, ClosedIn, TradedIn, FirstFrom;
    hide ClosedOut, EntryFlags, Held;
    EntryFlagged(e, k, f);
    var i := TriggerIndex(e, k, p, c, closes, moments);
    if i < |moments| {
      HeldReads(c, e, moments[i]);
      ClosedOutKeeps(p, moments, i, Triggered(e, k, DecisionAt(e, k, p, c, closes, moments[i]).trigger, moments[i],
                                              Held(c, e, moments[i]), UnmeasuredIn(p, moments[..i + 1])));
    }
  }

  lemma EntryFlagged(e: Entry, k: Case, f: real)
    requires Costs(k, f)
    ensures EntryFlags(e, k) == if 0.0 < e.fillReference + f < e.width then [] else [EntryOutsideWidth]
  {
  }

  lemma HeldReads(c: Calendar, e: Entry, m: int)
    requires IsCalendar(c)
    ensures Held(c, e, m) == |ClosedIn(c, e.day * 1440 + 605, m - 1)|
  {
    CompletedBetweenCounts(c, e.day * DAY + FILL_AT, m - 1);
    hide CompletedBetween, ClosedIn, IsCalendar;
  }

  lemma ClosedOutKeeps(p: Path, moments: seq<int>, i: nat, triggered: Trade)
    requires i < |moments| && triggered.flags == EntryFlags(triggered.entry, triggered.kase)
    requires triggered.status == NoExitFill
    ensures var t := ClosedOut(p, moments, i, triggered);
      && t.triggeredAt == triggered.triggeredAt && t.trigger == triggered.trigger
      && t.sessionsHeld == triggered.sessionsHeld && t.status in {NoExitFill, Closed}
      && (EntryOutsideWidth in t.flags <==> EntryOutsideWidth in triggered.flags)
  {
    hide TradedIn, FirstFrom, EntryFlags;
  }

  /** The observations up to a moment that have no value. */
  ghost function Missed(p: Path, moments: seq<int>, until: int): set<int>
  {
    set m | m in moments && m <= until && ValueAt(p.long, p.short, m) == None
  }

  lemma MissedNext(p: Path, front: seq<int>, last: int)
    requires forall m :: m in front ==> m < last
    ensures last !in Missed(p, front, last)
    ensures Missed(p, front + [last], last) ==
              if ValueAt(p.long, p.short, last) == None then Missed(p, front, last) + {last} else Missed(p, front, last)
  {
    hide ValueAt;
  }

  lemma {:induction false} UnmeasuredCounts(p: Path, moments: seq<int>, until: int)
    requires forall i, j :: 0 <= i < j < |moments| ==> moments[i] < moments[j]
    requires forall m :: m in moments ==> m <= until
    ensures UnmeasuredIn(p, moments) == |Missed(p, moments, until)|
  {
    hide ValueAt, Missed;
    MissedNone(p, until);
    if moments != [] {
      var front, last := moments[..|moments| - 1], moments[|moments| - 1];
      assert moments == front + [last];
      forall m | m in front ensures m < last {
        var j :| 0 <= j < |front| && front[j] == m;
        assert moments[j] < moments[|front|];
      }
      UnmeasuredCounts(p, front, last);
      MissedNext(p, front, last);
      MissedAll(p, moments, last, until);
    }
  }

  lemma MissedNone(p: Path, until: int)
    ensures Missed(p, [], until) == {}
  {
  }

  lemma MissedAll(p: Path, moments: seq<int>, a: int, b: int)
    requires forall m :: m in moments ==> m <= a && m <= b
    ensures Missed(p, moments, a) == Missed(p, moments, b)
  {
    hide ValueAt;
  }

  /** Up to an observation the list holds the same moments as its beginning. */
  lemma MissedUpTo(p: Path, moments: seq<int>, i: nat)
    requires forall i, j :: 0 <= i < j < |moments| ==> moments[i] < moments[j]
    requires i < |moments|
    ensures Missed(p, moments, moments[i]) == Missed(p, moments[..i + 1], moments[i])
  {
    hide ValueAt;
    forall m | m in moments && m <= moments[i] ensures m in moments[..i + 1] {
      var j :| 0 <= j < |moments| && moments[j] == m;
      assert moments[..i + 1][j] == m;
    }
  }

  /** Observations without a value are counted up to the trigger, it included, or all of them with none. */
  lemma UnmeasuredReads(e: Entry, k: Case, p: Path, c: Calendar, closes: seq<DailyClose>, moments: seq<int>, until: int)
    requires IsCalendar(c) && InOrder(closes) && closes != []
    requires forall i, j :: 0 <= i < j < |moments| ==> moments[i] < moments[j]
    requires forall m :: m in moments ==> m <= until
    ensures var t := TradeOf(e, k, p, c, closes, moments);
      t.unmeasured == |Missed(p, moments, if t.triggeredAt.Some? then t.triggeredAt.value else until)|
  {
    hide DecisionAt, ValueAt, Held, UnmeasuredIn, IsCalendar, InOrder, ClosesAt, EntryFlags, ExitFlags, TradedIn;
    hide Debit, Missed;
    var i := TriggerIndex(e, k, p, c, closes, moments);
    if i < |moments| {
      var seen := moments[..i + 1];
      forall m | m in seen ensures m <= moments[i] {
        var j :| 0 <= j < |seen| && seen[j] == m;
      }
      UnmeasuredCounts(p, seen, moments[i]);
      MissedUpTo(p, moments, i);
    } else {
      UnmeasuredCounts(p, moments, until);
    }
  }

  lemma NotTradedIn(p: Path, m: int)
    ensures TradedIn(p.long, p.short, m) == None ==> !Printed(p.long, m) || !Printed(p.short, m)
  {
  }

  /** A trade is untriggered only when the policy never closes it, unfilled only when no later bar has both legs. */
  lemma OpenTradeReads(e: Entry, k: Case, p: Path, c: Calendar, closes: seq<DailyClose>, moments: seq<int>, n: nat)
    requires IsCalendar(c) && InOrder(closes) && closes != [] && n < |moments|
    requires forall i, j :: 0 <= i < j < |moments| ==> moments[i] < moments[j]
    ensures var t := TradeOf(e, k, p, c, closes, moments);
      && (t.status == NoTrigger ==> !ClosesAt(e, k, p, c, closes, moments[n]))
      && (t.status == NoExitFill && t.triggeredAt.Some? && moments[n] > t.triggeredAt.value ==>
            !Printed(p.long, moments[n]) || !Printed(p.short, moments[n]))
  {
    NotTradedIn(p, moments[n]);
    hide DecisionAt, UnmeasuredIn, IsCalendar, InOrder, ClosesAt, Held, EntryFlags, ExitFlags, Debit, TradedIn, Printed;
    var i := TriggerIndex(e, k, p, c, closes, moments);
    TriggerIsFirst(e, k, p, c, closes, moments);
    if i < |moments| { ExitIsFirst(p, moments, i + 1); }
  }
}
