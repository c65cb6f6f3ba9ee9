/**
  The single-writer lease of `worker.py`: one shared row, changed by `acquire`,
  `heartbeat` and `release`, each of which reads the clock first and then runs one
  transaction against the row.
*/
module Lease {
  import opened Wrappers

  const TTL: int := 90
  const HEARTBEAT_INTERVAL: nat := 20
  /** The order, position and review clocks: each runs at most once a second. */
  const CLOCKS: nat := 3

  /** A worker process: its owner id is drawn once, at construction. */
  type WorkerId = nat

  datatype Row = Row(owner: WorkerId, acquiredAt: int, heartbeatAt: int, expiresAt: int, releasedAt: Option<int>)

  datatype Op = Acquire | Heartbeat | Release

  /** `acquire` refuses only a lease another worker holds, unreleased and unexpired. */
  predicate HeldByAnother(row: Option<Row>, w: WorkerId, stamp: int)
  {
    && row.Some? && row.value.owner != w
    && row.value.releasedAt == None && row.value.expiresAt > stamp
  }

  /** Whether one operation succeeds against the row it finds. */
  predicate Succeeds(row: Option<Row>, w: WorkerId, op: Op, stamp: int)
  {
    match op
    case Acquire => !HeldByAnother(row, w, stamp)
    case Heartbeat => row.Some? && row.value.owner == w
    case Release => row.Some? && row.value.owner == w
  }

  /** The row one operation leaves behind. */
  function Transact(row: Option<Row>, w: WorkerId, op: Op, stamp: int): Option<Row>
  {
    if !Succeeds(row, w, op, stamp) then row
    else match op
      case Acquire => Some(Row(w, stamp, stamp, stamp + TTL, None))
      case Heartbeat => Some(row.value.(heartbeatAt := stamp, expiresAt := stamp + TTL))
      case Release => Some(row.value.(releasedAt := Some(stamp), expiresAt := stamp))
  }

  // ------------------------------------------------------------ the row in place

  class LeaseRow {
    var owner: WorkerId
    var acquiredAt: int
    var heartbeatAt: int
    var expiresAt: int
    var releasedAt: Option<int>

    constructor (owner: WorkerId, stamp: int)
      ensures Value() == Row(owner, stamp, stamp, stamp + TTL, None)
    {
      this.owner, acquiredAt, heartbeatAt := owner, stamp, stamp;
      expiresAt, releasedAt := stamp + TTL, None;
    }

    function Value(): Row
      reads this
    {
      Row(owner, acquiredAt, heartbeatAt, expiresAt, releasedAt)
    }
  }

  /** The table as far as one lease name reaches: the row, or nothing yet. */
  class LeaseTable {
    var existing: LeaseRow?

    function Value(): Option<Row>
      reads this, existing
    {
      if existing == null then None else Some(existing.Value())
    }
  }

  class LeaseManager {
    const table: LeaseTable
    const owner: WorkerId

    constructor (table: LeaseTable, owner: WorkerId)
      ensures this.table == table && this.owner == owner
    {
      this.table, this.owner := table, owner;
    }

    method AcquireLease(stamp: int) returns (held: bool)
      modifies table, table.existing
      ensures held == Succeeds(old(table.Value()), owner, Acquire, stamp)
      ensures table.Value() == Transact(old(table.Value()), owner, Acquire, stamp)
    {
      if table.existing != null {
        var row := table.existing;
        var live := row.releasedAt == None && row.expiresAt > stamp;
        if live && row.owner != owner { return false; }
        row.owner := owner;
        row.acquiredAt := stamp;
        row.heartbeatAt := stamp;
        row.expiresAt := stamp + TTL;
        row.releasedAt := None;
      } else {
        table.existing := new LeaseRow(owner, stamp);
      }
      held := true;
    }

    method Beat(stamp: int) returns (kept: bool)
      modifies table.existing
      ensures kept == Succeeds(old(table.Value()), owner, Heartbeat, stamp)
      ensures table.Value() == Transact(old(table.Value()), owner, Heartbeat, stamp)
    {
      if table.existing == null || table.existing.owner != owner { return false; }
      table.existing.heartbeatAt := stamp;
      table.existing.expiresAt := stamp + TTL;
      kept := true;
    }

    method ReleaseLease(stamp: int)
      modifies table.existing
      ensures table.Value() == Transact(old(table.Value()), owner, Release, stamp)
    {
      if table.existing != null && table.existing.owner == owner {
        table.existing.releasedAt := Some(stamp);
        table.existing.expiresAt := stamp;
      }
    }
  }

  // --------------------------------------------------------------- the worker loop

  /** What one worker does, as its own log would show it. */
  datatype Act = Beat(kept: bool) | Tick | Sleep | Clock(which: Which) | Released

  /** The clocks between two ticks: for orders, for positions and for reviews. */
  datatype Which = Orders | Positions | Reviews

  /**
    Where a worker is. `Live(slept, clocks, admitted)`: it holds the lease as far as it
    knows, slept that many seconds since its last heartbeat, may still run that many clocks
    this second, and is `admitted` when the heartbeat was the last thing it did.
  */
  datatype Pc = Idle | Live(slept: nat, clocks: nat, admitted: bool) | Lost | Stopped | Crashed

  /** Straight after a successful acquire. */
  const HELD := Live(0, 0, false)

  /**
    The discipline of `main`: a tick only straight after a heartbeat that answered yes, no
    more than twenty seconds between heartbeats, and in each second at most three clocks.
  */
  function Next(pc: Pc, act: Act): Option<Pc>
  {
    match (pc, act)
    case (Live(_, clocks, _), Beat(kept)) => Some(if kept then Live(0, clocks, true) else Lost)
    case (Live(slept, clocks, admitted), Tick) => if admitted then Some(Live(slept, clocks, false)) else None
    case (Live(slept, _, _), Sleep) => if slept < HEARTBEAT_INTERVAL then Some(Live(slept + 1, CLOCKS, false)) else None
    case (Live(slept, clocks, _), Clock(_)) =>
      if slept < HEARTBEAT_INTERVAL && clocks > 0 then Some(Live(slept, clocks - 1, false)) else None
    case (Live(_, _, _), Released) => Some(Stopped)
    case (Lost, Released) => Some(Stopped)
    case _ => None
  }

  /** Where a log leads from `pc`, or nothing when it breaks the discipline. */
  function Follow(pc: Pc, log: seq<Act>): Option<Pc>
  {
    if log == [] then Some(pc)
    else
      var before := Follow(pc, log[..|log| - 1]);
      if before.None? then None else Next(before.value, log[|log| - 1])
  }

  lemma FollowOne(pc: Pc, log: seq<Act>, act: Act)
    requires Follow(pc, log).Some?
    ensures Follow(pc, log + [act]) == Next(Follow(pc, log).value, act)
  {
    assert (log + [act])[..|log|] == log;
  }

  /** The discipline, read off any log that keeps it. */
  lemma {:induction false} DisciplineOfLogs(log: seq<Act>)
    requires Follow(HELD, log).Some?
    ensures var pc := Follow(HELD, log).value;
      && (pc.Live? && pc.admitted ==> log != [] && log[|log| - 1] == Beat(true))
      && (pc.Live? ==> Beat(false) !in log && Released !in log)
      && (pc == Lost ==> log != [] && log[|log| - 1] == Beat(false))
    ensures forall k :: 0 <= k < |log| && log[k] == Tick ==> k > 0 && log[k - 1] == Beat(true)
    ensures forall k :: 0 <= k < |log| && log[k] == Beat(false) ==> forall j :: k < j < |log| ==> log[j] == Released
    ensures forall k :: 0 <= k < |log| && log[k] == Released ==> k == |log| - 1
  {
    if log != [] {
      var front := log[..|log| - 1];
      DisciplineOfLogs(front);
      assert forall k :: 0 <= k < |front| ==> log[k] == front[k];
      assert log[|log| - 1] == Released ==> Follow(HELD, front).value.Live? || Follow(HELD, front).value == Lost;
      forall k | 0 <= k < |log| && log[k] == Beat(false) ensures forall j :: k < j < |log| ==> log[j] == Released {
        if k < |front| { assert front[k] == Beat(false); }
      }
    }
  }

  method Append(log: seq<Act>, act: Act) returns (more: seq<Act>)
    requires Follow(HELD, log).Some? && Next(Follow(HELD, log).value, act).Some?
    ensures more == log + [act] && Follow(HELD, more) == Next(Follow(HELD, log).value, act)
  {
    FollowOne(HELD, log, act);
    more := log + [act];
  }

  predicate IsLive(pc: Option<Pc>) { pc.Some? && pc.value.Live? }

  /** A heartbeat's answer: admitted for one tick, or the lease is lost. */
  method LogBeat(log: seq<Act>, kept: bool) returns (more: seq<Act>)
    requires IsLive(Follow(HELD, log))
    ensures Follow(HELD, more) == Some(if kept then Live(0, Follow(HELD, log).value.clocks, true) else Lost)
    ensures more == log + [Beat(kept)]
  {
    hide Follow;
    more := Append(log, Beat(kept));
  }

  /** A tick, straight after a heartbeat that answered yes. */
  method LogTick(log: seq<Act>) returns (more: seq<Act>)
    requires IsLive(Follow(HELD, log)) && Follow(HELD, log).value.admitted
    ensures Follow(HELD, more) == Some(Follow(HELD, log).value.(admitted := false)) && more == log + [Tick]
  {
    hide Follow;
    more := Append(log, Tick);
  }

  method LogRelease(log: seq<Act>) returns (more: seq<Act>)
    requires IsLive(Follow(HELD, log)) || Follow(HELD, log) == Some(Lost)
    ensures Follow(HELD, more) == Some(Stopped) && more == log + [Released]
  {
    hide Follow;
    more := Append(log, Released);
  }

  /**
    What one worker meets: its settings in seconds (zero turns a clock off, and zero ticks
    means no limit), the answers to its heartbeats in order, the checks at which the stop flag
    is set, the ticks that raise, and the moments a review is due.
  */
  datatype Inputs = Inputs(interval: nat, maxTicks: nat, orderClock: nat, positionClock: nat,
                           answers: seq<bool>, stops: nat -> bool, raises: nat -> bool, reviewDue: nat -> bool)

  // ---------------------------------------------------------- what log the inputs give

  /** The clocks due in the n-th second of a wait. */
  function Due(i: Inputs, n: nat, moment: nat): seq<Act>
  {
    (if i.orderClock > 0 && n % i.orderClock == 0 then [Clock(Orders)] else [])
    + (if i.positionClock > 0 && n % i.positionClock == 0 then [Clock(Positions)] else [])
    + (if i.reviewDue(moment) then [Clock(Reviews)] else [])
  }

  predicate Kept(i: Inputs, k: nat) { k < |i.answers| && i.answers[k] }

  /** The n-th second of a wait that starts with `asked` answers used: a sleep, every twentieth with a heartbeat. */
  function Second(i: Inputs, asked: nat, checks: nat, n: nat): seq<Act>
  {
    if n % 20 != 0 || n == 0 then [Sleep] + Due(i, n, checks + n)
    else if Kept(i, asked + n / 20 - 1) then [Sleep, Beat(true)] + Due(i, n, checks + n)
    else [Sleep, Beat(false)]
  }

  function Seconds(i: Inputs, asked: nat, checks: nat, k: nat): seq<Act>
  {
    if k == 0 then [] else Seconds(i, asked, checks, k - 1) + Second(i, asked, checks, k)
  }

  /** A wait gets through k seconds: none of them stopped, and every heartbeat in them a yes. */
  ghost predicate Slept(i: Inputs, asked: nat, checks: nat, k: nat)
  {
    && k <= i.interval && asked + k / 20 <= |i.answers|
    && (forall c :: checks <= c < checks + k ==> !i.stops(c))
    && (forall a :: asked <= a < asked + k / 20 ==> i.answers[a])
  }

  /** It ends by itself after the interval, or early where the stop flag is set. */
  ghost predicate Rests(i: Inputs, asked: nat, checks: nat, k: nat)
  {
    Slept(i, asked, checks, k) && (k == i.interval || i.stops(checks + k))
  }

  /** It is cut short at the heartbeat of second k + 1: answered no, or never answered. */
  ghost predicate CutShort(i: Inputs, asked: nat, checks: nat, k: nat)
  {
    && Slept(i, asked, checks, k) && k < i.interval && !i.stops(checks + k) && (k + 1) % 20 == 0
    && !Kept(i, asked + k / 20)
  }

  /** One whole pass of the loop: where it stands in the answers and the checks, and how long it waits. */
  datatype Pass = Pass(asked: nat, checks: nat, seconds: nat)

  /** A pass is a heartbeat that answers yes, then a tick, then the wait. */
  function PassLog(i: Inputs, p: Pass): seq<Act>
  {
    [Beat(true), Tick] + Seconds(i, p.asked + 1, p.checks + 1, p.seconds)
  }

  function Logs(i: Inputs, passes: seq<Pass>): seq<Act>
  {
    if passes == [] then [] else Logs(i, passes[..|passes| - 1]) + PassLog(i, passes[|passes| - 1])
  }

  /** How many of the first n ticks did not raise. */
  function Done(i: Inputs, n: nat): nat
  {
    if n == 0 then 0 else Done(i, n - 1) + if i.raises(n - 1) then 0 else 1
  }

  predicate Enough(i: Inputs, started: nat) { i.maxTicks > 0 && Done(i, started) >= i.maxTicks }

  function AskedBy(passes: seq<Pass>, k: nat): nat
    requires k <= |passes|
  {
    if k == 0 then 0 else passes[k - 1].asked + 1 + passes[k - 1].seconds / 20
  }

  function ChecksBy(passes: seq<Pass>, k: nat): nat
    requires k <= |passes|
  {
    if k == 0 then 0 else passes[k - 1].checks + 1 + passes[k - 1].seconds
  }

  /** The k-th pass is made in full, and is not the last: too few ticks are done. */
  ghost predicate Made(i: Inputs, p: Pass, k: nat)
  {
    && !i.stops(p.checks) && Kept(i, p.asked) && !Enough(i, k + 1)
    && Rests(i, p.asked + 1, p.checks + 1, p.seconds)
  }

  ghost predicate AllMade(i: Inputs, passes: seq<Pass>)
  {
    forall k :: 0 <= k < |passes| ==> InPlace(i, passes, k)
  }

  ghost predicate InPlace(i: Inputs, passes: seq<Pass>, k: nat)
    requires k < |passes|
  {
    passes[k].asked == AskedBy(passes, k) && passes[k].checks == ChecksBy(passes, k) && Made(i, passes[k], k)
  }

  /**
    How the log ends, after `started` whole passes: stopped, unanswered, answered no, or with
    enough ticks done; else in the wait of one more pass, at a heartbeat not answered yes.
  */
  ghost predicate EndsWith(i: Inputs, asked: nat, checks: nat, started: nat, tail: seq<Act>, finished: bool)
  {
    if i.stops(checks) then tail == [Released] && finished
    else if asked >= |i.answers| then tail == [] && !finished
    else if !i.answers[asked] then tail == [Beat(false), Released] && finished
    else if Enough(i, started + 1) then tail == [Beat(true), Tick, Released] && finished
    else EndsMidWait(i, asked + 1, checks + 1, tail, finished)
  }

  ghost predicate EndsMidWait(i: Inputs, asked: nat, checks: nat, tail: seq<Act>, finished: bool)
  {
    exists k: nat :: EndsInWait(i, asked, checks, k, tail, finished)
  }

  ghost predicate EndsInWait(i: Inputs, asked: nat, checks: nat, k: nat, tail: seq<Act>, finished: bool)
  {
    && CutShort(i, asked, checks, k) && (finished <==> asked + k / 20 < |i.answers|)
    && tail == [Beat(true), Tick] + if finished then Seconds(i, asked, checks, k + 1) + [Released]
                                    else Seconds(i, asked, checks, k) + [Sleep]
  }

  ghost predicate EndsAfter(i: Inputs, passes: seq<Pass>, tail: seq<Act>, log: seq<Act>, finished: bool)
  {
    && AllMade(i, passes) && log == Logs(i, passes) + tail
    && EndsWith(i, AskedBy(passes, |passes|), ChecksBy(passes, |passes|), |passes|, tail, finished)
  }

  /** The whole log of a worker: passes made in full, each on what the one before it used up, and an end. */
  ghost predicate Ran(i: Inputs, log: seq<Act>, finished: bool)
  {
    exists passes, tail :: EndsAfter(i, passes, tail, log, finished)
  }

  /** A wait that ended by itself completes a pass. */
  lemma OnePassMore(i: Inputs, passes: seq<Pass>, seconds: nat, log: seq<Act>)
    requires AllMade(i, passes)
    requires var asked, checks := AskedBy(passes, |passes|), ChecksBy(passes, |passes|);
      && !i.stops(checks) && Kept(i, asked) && !Enough(i, |passes| + 1) && Rests(i, asked + 1, checks + 1, seconds)
      && log == Logs(i, passes) + [Beat(true)] + [Tick] + Seconds(i, asked + 1, checks + 1, seconds)
    ensures
      var all := passes + [Pass(AskedBy(passes, |passes|), ChecksBy(passes, |passes|), seconds)];
      && AllMade(i, all) && log == Logs(i, all)
      && AskedBy(all, |all|) == AskedBy(passes, |passes|) + 1 + seconds / 20
      && ChecksBy(all, |all|) == ChecksBy(passes, |passes|) + 1 + seconds
  {
    hide Rests, Seconds, Enough;
    var p := Pass(AskedBy(passes, |passes|), ChecksBy(passes, |passes|), seconds);
    var all := passes + [p];
    assert all[..|passes|] == passes;
    assert Logs(i, passes) + [Beat(true)] + [Tick] + Seconds(i, p.asked + 1, p.checks + 1, seconds)
        == Logs(i, passes) + PassLog(i, p);
    assert Made(i, p, |passes|);
    hide Made, Logs, PassLog;
    forall k | 0 <= k < |all| ensures InPlace(i, all, k) {
      if k < |passes| {
        assert InPlace(i, passes, k);
        assert all[k] == passes[k] && AskedBy(all, k) == AskedBy(passes, k) && ChecksBy(all, k) == ChecksBy(passes, k);
      }
    }
  }

  lemma Regroup(log: seq<Act>, more: seq<Act>, last: Act)
    ensures log + [Beat(true)] + [Tick] + more + [last] == log + ([Beat(true), Tick] + (more + [last]))
    ensures log + [Beat(true)] + [Tick] + (more + [last]) == log + ([Beat(true), Tick] + (more + [last]))
  {
  }

  // -------------------------------------------------------------------- the loop itself

  datatype Ending = Rested | LostIt | Died

  /**
    The wait between ticks: one second at a time, a heartbeat every twentieth, and the
    clocks that are due. It dies when it asks for a heartbeat answer that is not there.
  */
  method Wait(i: Inputs, from: nat, checked: nat, before: seq<Act>)
    returns (log: seq<Act>, asked: nat, checks: nat, ending: Ending, ghost seconds: nat)
    requires from <= |i.answers|
    requires Follow(HELD, before).Some? && Follow(HELD, before).value.Live?
    requires Follow(HELD, before).value.slept == 0
    ensures from <= asked <= |i.answers|
    ensures Follow(HELD, log).Some?
    ensures ending == LostIt ==> Follow(HELD, log) == Some(Lost)
    ensures ending != LostIt ==> Follow(HELD, log).value.Live?
    ensures ending == Rested ==>
      && Rests(i, from, checked, seconds) && asked == from + seconds / 20 && checks == checked + seconds
      && log == before + Seconds(i, from, checked, seconds)
    ensures ending == LostIt ==>
      && CutShort(i, from, checked, seconds) && from + seconds / 20 < |i.answers|
      && log == before + Seconds(i, from, checked, seconds + 1)
    ensures ending == Died ==>
      && CutShort(i, from, checked, seconds) && from + seconds / 20 == |i.answers|
      && log == before + (Seconds(i, from, checked, seconds) + [Sleep])
  {
    hide Follow, Due, Slept, Second, Seconds, CutShort;
    log, asked, checks, seconds := before, from, checked, 0;
    SleptNone(i, from, checked);
    NoSeconds(i, from, checked);
    var waited := 0;
    while waited < i.interval && !i.stops(checks)
      invariant waited == seconds <= i.interval && checks == checked + waited
      invariant asked == from + waited / 20 <= |i.answers|
      invariant Slept(i, from, checked, waited) && log == before + Seconds(i, from, checked, waited)
      invariant Follow(HELD, log).Some? && Follow(HELD, log).value.Live?
      invariant Follow(HELD, log).value.slept == waited % HEARTBEAT_INTERVAL
    {
      ghost var start := log;
      SleptMore(i, from, checked, waited);
      SecondIs(i, from, checked, waited + 1);
      checks := checks + 1;
      log := Append(log, Sleep);
      waited := waited + 1;
      if waited % HEARTBEAT_INTERVAL == 0 {
        if asked == |i.answers| { return log, asked, checks, Died, seconds; }
        var kept := i.answers[asked];
        asked := asked + 1;
        log := LogBeat(log, kept);
        if !kept { return log, asked, checks, LostIt, seconds; }
      }
      log := LogClocks(i, waited, checks, log);
      seconds := waited;
      assert log == start + Second(i, from, checked, waited);
    }
    ending := Rested;
  }

  lemma NoSeconds(i: Inputs, asked: nat, checks: nat)
    ensures Seconds(i, asked, checks, 0) == []
  {
  }

  lemma SleptNone(i: Inputs, asked: nat, checks: nat)
    requires asked <= |i.answers|
    ensures Slept(i, asked, checks, 0)
  {
  }

  /** One second more: where it has a heartbeat, its answer decides. */
  lemma SleptMore(i: Inputs, asked: nat, checks: nat, k: nat)
    requires Slept(i, asked, checks, k) && k < i.interval && !i.stops(checks + k)
    ensures asked + k / 20 <= |i.answers|
    ensures (k + 1) / 20 == k / 20 + if (k + 1) % 20 == 0 then 1 else 0
    ensures (k + 1) % 20 != 0 || Kept(i, asked + k / 20) ==> Slept(i, asked, checks, k + 1)
    ensures (k + 1) % 20 == 0 && !Kept(i, asked + k / 20) ==> CutShort(i, asked, checks, k)
  {
    TwentyMore(k);
  }

  lemma TwentyMore(k: nat)
    ensures (k + 1) / 20 == k / 20 + if (k + 1) % 20 == 0 then 1 else 0
  {
  }

  lemma SecondIs(i: Inputs, asked: nat, checks: nat, n: nat)
    requires n > 0
    ensures Seconds(i, asked, checks, n) == Seconds(i, asked, checks, n - 1) + Second(i, asked, checks, n)
    ensures n % 20 != 0 ==> Second(i, asked, checks, n) == [Sleep] + Due(i, n, checks + n)
    ensures n % 20 == 0 ==>
      Second(i, asked, checks, n) ==
        if Kept(i, asked + n / 20 - 1) then [Sleep, Beat(true)] + Due(i, n, checks + n) else [Sleep, Beat(false)]
  {
    hide Due;
  }

  /** Each clock is due by itself; a quiet pass of one skips no other. */
  method LogClocks(i: Inputs, waited: nat, moment: nat, before: seq<Act>) returns (log: seq<Act>)
    requires IsLive(Follow(HELD, before))
    requires Follow(HELD, before).value.slept < HEARTBEAT_INTERVAL && Follow(HELD, before).value.clocks == CLOCKS
    ensures log == before + Due(i, waited, moment)
    ensures IsLive(Follow(HELD, log)) && Follow(HELD, log).value.slept == Follow(HELD, before).value.slept
  {
    hide Follow;
    log := before;
    if i.orderClock > 0 && waited % i.orderClock == 0 { log := Append(log, Clock(Orders)); }
    if i.positionClock > 0 && waited % i.positionClock == 0 { log := Append(log, Clock(Positions)); }
    if i.reviewDue(moment) { log := Append(log, Clock(Reviews)); }
  }

  /** The wait of a pass whose tick was made: the loop goes on, or this is its end. */
  method FinishPass(i: Inputs, from: nat, checked: nat, before: seq<Act>, ghost passes: seq<Pass>)
    returns (log: seq<Act>, asked: nat, checks: nat, over: bool, finished: bool, ghost more: seq<Pass>)
    requires IsLive(Follow(HELD, before)) && Follow(HELD, before).value.slept == 0
    requires AllMade(i, passes) && before == Logs(i, passes) + [Beat(true)] + [Tick]
    requires from == AskedBy(passes, |passes|) + 1 && checked == ChecksBy(passes, |passes|) + 1
    requires !i.stops(checked - 1) && Kept(i, from - 1) && !Enough(i, |passes| + 1)
    ensures from <= asked <= |i.answers|
    ensures over ==>
      Follow(HELD, log).Some? && (finished <==> Follow(HELD, log) == Some(Stopped)) && Ran(i, log, finished)
    ensures !over ==>
      && IsLive(Follow(HELD, log)) && !finished
      && AllMade(i, more) && log == Logs(i, more) && |more| == |passes| + 1
      && asked == AskedBy(more, |more|) && checks == ChecksBy(more, |more|)
  {
    hide Follow, Rests, CutShort, AllMade, Seconds, Logs, AskedBy, ChecksBy, Ran;
    var ending;
    ghost var seconds;
    log, asked, checks, ending, seconds := Wait(i, from, checked, before);
    over, finished, more := true, false, passes;
    match ending {
      case Rested =>
        OnePassMore(i, passes, seconds, log);
        more := passes + [Pass(from - 1, checked - 1, seconds)];
        over := false;
      case Died =>
        RanToWait(i, passes, seconds, log, false);
      case LostIt =>
        log := LogRelease(log);
        finished := true;
        RanToWait(i, passes, seconds, log, true);
    }
  }

  /** The loop of `main`, after a successful acquire. */
  method Loop(i: Inputs) returns (log: seq<Act>, finished: bool)
    ensures Follow(HELD, log).Some?
    ensures finished <==> Follow(HELD, log) == Some(Stopped)
    ensures Ran(i, log, finished)
  {
    log, finished := [], false;
    assert Follow(HELD, log) == Some(HELD);
    hide Follow, Next, AllMade, Logs, AskedBy, ChecksBy, Done, Ran;
    ghost var passes: seq<Pass> := [];
    NoPasses(i);
    var asked, checks, started, ticks := 0, 0, 0, 0;
    while !i.stops(checks)
      invariant 0 <= asked <= |i.answers|
      invariant IsLive(Follow(HELD, log))
      invariant AllMade(i, passes) && log == Logs(i, passes) && started == |passes|
      invariant asked == AskedBy(passes, started) && checks == ChecksBy(passes, started)
      invariant ticks == Done(i, started) && !finished
      decreases |i.answers| - asked
    {
      checks := checks + 1;
      if asked == |i.answers| {
        RanOut(i, passes, log);
        return;
      }
      var kept := i.answers[asked];
      asked := asked + 1;
      log := LogBeat(log, kept);
      if !kept {
        log := LogRelease(log);
        RanToNo(i, passes, log);
        return log, true;
      }
      log := LogTick(log);
      if !i.raises(started) { ticks := ticks + 1; }
      DoneOne(i, started);
      started := started + 1;
      if i.maxTicks > 0 && ticks >= i.maxTicks {
        log := LogRelease(log);
        RanEnough(i, passes, log);
        return log, true;
      }
      var over;
      log, asked, checks, over, finished, passes := FinishPass(i, asked, checks, log, passes);
      if over { return; }
    }
    log := LogRelease(log);
    finished := true;
    RanToStop(i, passes, log);
  }

  lemma NoPasses(i: Inputs)
    ensures AllMade(i, []) && Logs(i, []) == [] && AskedBy([], 0) == ChecksBy([], 0) == 0 && Done(i, 0) == 0
  {
  }

  lemma DoneOne(i: Inputs, n: nat)
    ensures Done(i, n + 1) == Done(i, n) + if i.raises(n) then 0 else 1
  {
  }

  lemma RanTo(i: Inputs, passes: seq<Pass>, tail: seq<Act>, log: seq<Act>, finished: bool)
    requires AllMade(i, passes) && log == Logs(i, passes) + tail
    requires EndsWith(i, AskedBy(passes, |passes|), ChecksBy(passes, |passes|), |passes|, tail, finished)
    ensures Ran(i, log, finished)
  {
    hide AllMade, EndsWith, Logs, AskedBy, ChecksBy;
    assert EndsAfter(i, passes, tail, log, finished);
  }

  lemma RanToStop(i: Inputs, passes: seq<Pass>, log: seq<Act>)
    requires AllMade(i, passes) && log == Logs(i, passes) + [Released] && i.stops(ChecksBy(passes, |passes|))
    ensures Ran(i, log, true)
  {
    hide AllMade, Logs, AskedBy, ChecksBy, Ran;
    RanTo(i, passes, [Released], log, true);
  }

  lemma RanOut(i: Inputs, passes: seq<Pass>, log: seq<Act>)
    requires AllMade(i, passes) && log == Logs(i, passes)
    requires !i.stops(ChecksBy(passes, |passes|)) && AskedBy(passes, |passes|) == |i.answers|
    ensures Ran(i, log, false)
  {
    hide AllMade, Logs, AskedBy, ChecksBy, Ran;
    assert log == log + [];
    RanTo(i, passes, [], log, false);
  }

  lemma RanToNo(i: Inputs, passes: seq<Pass>, log: seq<Act>)
    requires AllMade(i, passes) && log == Logs(i, passes) + [Beat(false)] + [Released]
    requires !i.stops(ChecksBy(passes, |passes|))
    requires AskedBy(passes, |passes|) < |i.answers| && !i.answers[AskedBy(passes, |passes|)]
    ensures Ran(i, log, true)
  {
    hide AllMade, Logs, AskedBy, ChecksBy, Ran;
    RanTo(i, passes, [Beat(false), Released], log, true);
  }

  lemma RanEnough(i: Inputs, passes: seq<Pass>, log: seq<Act>)
    requires AllMade(i, passes) && log == Logs(i, passes) + [Beat(true)] + [Tick] + [Released]
    requires !i.stops(ChecksBy(passes, |passes|)) && Kept(i, AskedBy(passes, |passes|)) && Enough(i, |passes| + 1)
    ensures Ran(i, log, true)
  {
    hide AllMade, Logs, AskedBy, ChecksBy, Ran, Enough;
    RanTo(i, passes, [Beat(true), Tick, Released], log, true);
  }

  lemma RanToWait(i: Inputs, passes: seq<Pass>, k: nat, log: seq<Act>, finished: bool)
    requires AllMade(i, passes)
    requires var asked, checks := AskedBy(passes, |passes|), ChecksBy(passes, |passes|);
      && !i.stops(checks) && Kept(i, asked) && !Enough(i, |passes| + 1)
      && CutShort(i, asked + 1, checks + 1, k) && (finished <==> asked + 1 + k / 20 < |i.answers|)
      && log == if finished then
                  Logs(i, passes) + [Beat(true)] + [Tick] + Seconds(i, asked + 1, checks + 1, k + 1) + [Released]
                else Logs(i, passes) + [Beat(true)] + [Tick] + (Seconds(i, asked + 1, checks + 1, k) + [Sleep])
    ensures Ran(i, log, finished)
  {
    hide CutShort, AllMade, Seconds, Logs, AskedBy, ChecksBy;
    var asked, checks := AskedBy(passes, |passes|), ChecksBy(passes, |passes|);
    var rest := if finished then Seconds(i, asked + 1, checks + 1, k + 1) + [Released]
                else Seconds(i, asked + 1, checks + 1, k) + [Sleep];
    var tail := [Beat(true), Tick] + rest;
    assert EndsInWait(i, asked + 1, checks + 1, k, tail, finished);
    Regroup(Logs(i, passes), Seconds(i, asked + 1, checks + 1, if finished then k + 1 else k),
            if finished then Released else Sleep);
    assert EndsMidWait(i, asked + 1, checks + 1, tail, finished);
    RanTo(i, passes, tail, log, finished);
  }

  // ----------------------------------------------------- what the log says of the inputs

  /** A wait has one end only. */
  lemma OneRest(i: Inputs, asked: nat, checks: nat, k: nat, n: nat)
    requires Rests(i, asked, checks, k) && Rests(i, asked, checks, n)
    ensures k == n
  {
  }

  lemma OneCut(i: Inputs, asked: nat, checks: nat, k: nat, n: nat)
    requires CutShort(i, asked, checks, k)
    ensures CutShort(i, asked, checks, n) ==> k == n
    ensures !Rests(i, asked, checks, n)
  {
    TwentyMore(k);
    TwentyMore(n);
  }

  lemma {:induction false} SamePasses(i: Inputs, passes: seq<Pass>, others: seq<Pass>, n: nat)
    requires AllMade(i, passes) && AllMade(i, others) && n <= |passes| && n <= |others|
    ensures passes[..n] == others[..n]
    ensures AskedBy(passes, n) == AskedBy(others, n) && ChecksBy(passes, n) == ChecksBy(others, n)
  {
    if n > 0 {
      SamePasses(i, passes, others, n - 1);
      assert InPlace(i, passes, n - 1) && InPlace(i, others, n - 1);
      hide Rests, AllMade;
      var p, q := passes[n - 1], others[n - 1];
      OneRest(i, p.asked + 1, p.checks + 1, p.seconds, q.seconds);
      assert passes[..n] == passes[..n - 1] + [p] && others[..n] == others[..n - 1] + [q];
    }
  }

  /** Where one log goes on with another pass, another does not end. */
  lemma NoneShorter(i: Inputs, passes: seq<Pass>, others: seq<Pass>, tail: seq<Act>, log: seq<Act>, finished: bool)
    requires EndsAfter(i, passes, tail, log, finished) && AllMade(i, others)
    ensures |passes| >= |others|
  {
    hide Logs;
    var n := |passes|;
    if n < |others| {
      SamePasses(i, passes, others, n);
      assert InPlace(i, others, n);
      hide AllMade, AskedBy, ChecksBy;
      NoEndHere(i, others[n], n, tail, finished);
    }
  }

  lemma NoEndHere(i: Inputs, p: Pass, n: nat, tail: seq<Act>, finished: bool)
    requires Made(i, p, n)
    ensures !EndsWith(i, p.asked, p.checks, n, tail, finished)
  {
    hide Rests, CutShort, Seconds, Enough;
    if EndsMidWait(i, p.asked + 1, p.checks + 1, tail, finished) {
      var k: nat :| EndsInWait(i, p.asked + 1, p.checks + 1, k, tail, finished);
      OneCut(i, p.asked + 1, p.checks + 1, k, p.seconds);
    }
  }

  /** The inputs leave one log. */
  lemma OneLog(i: Inputs, log: seq<Act>, other: seq<Act>, finished: bool, done: bool)
    requires Ran(i, log, finished) && Ran(i, other, done)
    ensures log == other && finished == done
  {
    var passes, tail :| EndsAfter(i, passes, tail, log, finished);
    var others, end :| EndsAfter(i, others, end, other, done);
    NoneShorter(i, passes, others, tail, log, finished);
    NoneShorter(i, others, passes, end, other, done);
    SamePasses(i, passes, others, |passes|);
    assert passes[..|passes|] == passes && others[..|passes|] == others;
    var asked, checks := AskedBy(passes, |passes|), ChecksBy(passes, |passes|);
    hide AllMade, CutShort, Seconds, Logs, Enough, AskedBy, ChecksBy;
    OneEnd(i, asked, checks, |passes|, tail, end, finished, done);
  }

  lemma OneEnd(i: Inputs, asked: nat, checks: nat, started: nat, tail: seq<Act>, end: seq<Act>,
               finished: bool, done: bool)
    requires EndsWith(i, asked, checks, started, tail, finished) && EndsWith(i, asked, checks, started, end, done)
    ensures tail == end && finished == done
  {
    hide CutShort, Seconds, Enough;
    if EndsMidWait(i, asked + 1, checks + 1, tail, finished) && EndsMidWait(i, asked + 1, checks + 1, end, done) {
      var k: nat :| EndsInWait(i, asked + 1, checks + 1, k, tail, finished);
      var n: nat :| EndsInWait(i, asked + 1, checks + 1, n, end, done);
      OneCut(i, asked + 1, checks + 1, k, n);
    }
  }

  function Count(log: seq<Act>, act: Act): nat
  {
    if log == [] then 0 else Count(log[..|log| - 1], act) + if log[|log| - 1] == act then 1 else 0
  }

  lemma {:induction false} CountPlus(log: seq<Act>, more: seq<Act>, act: Act)
    ensures Count(log + more, act) == Count(log, act) + Count(more, act)
  {
    if more == [] {
      assert log + more == log;
    } else {
      CountPlus(log, more[..|more| - 1], act);
      assert (log + more)[..|log + more| - 1] == log + more[..|more| - 1];
    }
  }

  lemma {:induction false} CountNone(log: seq<Act>, act: Act)
    requires act !in log
    ensures Count(log, act) == 0
  {
    if log != [] { CountNone(log[..|log| - 1], act); }
  }

  lemma CountHead(acts: seq<Act>, more: seq<Act>, act: Act)
    requires |acts| <= 2 && act !in more
    ensures Count(acts + more, act) ==
            (if |acts| > 0 && acts[0] == act then 1 else 0) + (if |acts| > 1 && acts[1] == act then 1 else 0)
  {
    CountPlus(acts, more, act);
    CountNone(more, act);
    if |acts| == 2 { assert acts == [acts[0]] + [acts[1]]; CountPlus([acts[0]], [acts[1]], act); }
  }

  lemma SecondCounts(i: Inputs, asked: nat, checks: nat, n: nat)
    ensures Count(Second(i, asked, checks, n), Tick) == 0 && Count(Second(i, asked, checks, n), Sleep) == 1
  {
    var due := Due(i, n, checks + n);
    assert Tick !in due && Sleep !in due;
    hide Due;
    CountHead([Sleep], due, Tick);
    CountHead([Sleep], due, Sleep);
    CountHead([Sleep, Beat(true)], due, Tick);
    CountHead([Sleep, Beat(true)], due, Sleep);
    CountHead([Sleep, Beat(false)], [], Tick);
    CountHead([Sleep, Beat(false)], [], Sleep);
    assert [Sleep, Beat(false)] + [] == [Sleep, Beat(false)];
  }

  /** A wait of k seconds sleeps k times and makes no tick. */
  lemma {:induction false} SecondsCount(i: Inputs, asked: nat, checks: nat, k: nat)
    ensures Count(Seconds(i, asked, checks, k), Tick) == 0 && Count(Seconds(i, asked, checks, k), Sleep) == k
  {
    hide Second, Seconds, Count;
    if k > 0 {
      SecondsCount(i, asked, checks, k - 1);
      SecondIs(i, asked, checks, k);
      SecondCounts(i, asked, checks, k);
      CountPlus(Seconds(i, asked, checks, k - 1), Second(i, asked, checks, k), Tick);
      CountPlus(Seconds(i, asked, checks, k - 1), Second(i, asked, checks, k), Sleep);
    } else {
      NoSeconds(i, asked, checks);
      NothingCounts();
    }
  }

  lemma HeadCounts(wait: seq<Act>)
    ensures Count([Beat(true), Tick] + wait, Tick) == 1 + Count(wait, Tick)
    ensures Count([Beat(true), Tick] + wait, Sleep) == Count(wait, Sleep)
  {
    var head := [Beat(true), Tick];
    CountPlus(head, wait, Tick);
    CountPlus(head, wait, Sleep);
    CountHead(head, [], Tick);
    CountHead(head, [], Sleep);
    assert head + [] == head;
  }

  lemma PassCounts(i: Inputs, p: Pass)
    ensures Count(PassLog(i, p), Tick) == 1 && Count(PassLog(i, p), Sleep) == p.seconds
  {
    hide Seconds, Count;
    SecondsCount(i, p.asked + 1, p.checks + 1, p.seconds);
    HeadCounts(Seconds(i, p.asked + 1, p.checks + 1, p.seconds));
  }

  /** One tick for each pass, and all the seconds of its wait. */
  lemma {:induction false} LogsCount(i: Inputs, passes: seq<Pass>)
    ensures Count(Logs(i, passes), Tick) == |passes| && Count(Logs(i, passes), Sleep) == SleptBy(passes)
  {
    if passes != [] {
      hide PassLog;
      var front, p := passes[..|passes| - 1], passes[|passes| - 1];
      LogsCount(i, front);
      PassCounts(i, p);
      CountPlus(Logs(i, front), PassLog(i, p), Tick);
      CountPlus(Logs(i, front), PassLog(i, p), Sleep);
    }
  }

  /** A clock of a given period, off at zero, is due once in every period of seconds. */
  function Rounds(period: nat, k: nat): nat
  {
    if period == 0 then 0 else k / period
  }

  lemma RoundsMore(period: nat, k: nat)
    requires k > 0
    ensures Rounds(period, k) == Rounds(period, k - 1) + if period > 0 && k % period == 0 then 1 else 0
  {
    if period > 0 {
      var q, r := (k - 1) / period, (k - 1) % period;
      assert k == q * period + r + 1;
      if r + 1 == period {
        assert k == (q + 1) * period + 0;
        DivIs(k, period, q + 1, 0);
      } else {
        DivIs(k, period, q, r + 1);
      }
    }
  }

  lemma DivIs(k: nat, period: nat, q: nat, r: nat)
    requires period > 0 && r < period && k == q * period + r
    ensures k / period == q && k % period == r
  {
    var n, rest := k / period, k % period;
    assert k == n * period + rest;
    if n > q { Apart(n, q, period); }
    if n < q { Apart(q, n, period); }
  }

  lemma Apart(n: int, q: int, period: int)
    requires n > q && period > 0
    ensures n * period >= q * period + period
  {
    assert (n - q - 1) * period >= 0;
    assert (n - q - 1) * period == n * period - q * period - period;
  }

  /**
    The cadence of a wait in which every heartbeat answered yes: one heartbeat in twenty
    seconds, and each clock once in its own period, whatever the others do.
  */
  lemma {:induction false} Cadence(i: Inputs, asked: nat, checks: nat, k: nat)
    requires Slept(i, asked, checks, k)
    ensures Count(Seconds(i, asked, checks, k), Beat(true)) == k / 20
    ensures Count(Seconds(i, asked, checks, k), Clock(Orders)) == Rounds(i.orderClock, k)
    ensures Count(Seconds(i, asked, checks, k), Clock(Positions)) == Rounds(i.positionClock, k)
  {
    hide Slept, Second, Seconds, Rounds, Count;
    if k > 0 {
      SleptLess(i, asked, checks, k);
      TwentyMore(k - 1);
      Cadence(i, asked, checks, k - 1);
      RoundsMore(i.orderClock, k);
      RoundsMore(i.positionClock, k);
      SecondIs(i, asked, checks, k);
      SecondBeats(i, asked, checks, k);
      CountPlus(Seconds(i, asked, checks, k - 1), Second(i, asked, checks, k), Beat(true));
      CountPlus(Seconds(i, asked, checks, k - 1), Second(i, asked, checks, k), Clock(Orders));
      CountPlus(Seconds(i, asked, checks, k - 1), Second(i, asked, checks, k), Clock(Positions));
    } else {
      NoSeconds(i, asked, checks);
      NothingCounts();
      ZeroRounds(i.orderClock);
      ZeroRounds(i.positionClock);
    }
  }

  lemma NothingCounts()
    ensures forall act :: Count([], act) == 0
  {
  }

  lemma SleptLess(i: Inputs, asked: nat, checks: nat, k: nat)
    requires Slept(i, asked, checks, k) && k > 0
    ensures Slept(i, asked, checks, k - 1) && (k % 20 == 0 ==> Kept(i, asked + k / 20 - 1))
  {
  }

  lemma ZeroRounds(period: nat)
    ensures Rounds(period, 0) == 0
  {
  }

  lemma SecondBeats(i: Inputs, asked: nat, checks: nat, n: nat)
    requires n > 0 && (n % 20 == 0 ==> Kept(i, asked + n / 20 - 1))
    ensures Count(Second(i, asked, checks, n), Beat(true)) == if n % 20 == 0 then 1 else 0
    ensures Count(Second(i, asked, checks, n), Clock(Orders)) ==
            if i.orderClock > 0 && n % i.orderClock == 0 then 1 else 0
    ensures Count(Second(i, asked, checks, n), Clock(Positions)) ==
            if i.positionClock > 0 && n % i.positionClock == 0 then 1 else 0
  {
    var due := Due(i, n, checks + n);
    DueCounts(i, n, checks + n);
    assert Beat(true) !in due;
    CountNone(due, Beat(true));
    hide Due, Count;
    var head := if n % 20 == 0 then [Sleep, Beat(true)] else [Sleep];
    FewCount(head, due);
  }

  lemma FewCount(head: seq<Act>, due: seq<Act>)
    requires head == [Sleep] || head == [Sleep, Beat(true)]
    ensures Count(head + due, Beat(true)) == (if |head| == 2 then 1 else 0) + Count(due, Beat(true))
    ensures Count(head + due, Clock(Orders)) == Count(due, Clock(Orders))
    ensures Count(head + due, Clock(Positions)) == Count(due, Clock(Positions))
  {
    CountPlus(head, due, Beat(true));
    CountPlus(head, due, Clock(Orders));
    CountPlus(head, due, Clock(Positions));
    CountHead(head, [], Beat(true));
    CountNone(head, Clock(Orders));
    CountNone(head, Clock(Positions));
    assert head + [] == head;
  }

  lemma DueCounts(i: Inputs, n: nat, moment: nat)
    ensures Count(Due(i, n, moment), Clock(Orders)) == if i.orderClock > 0 && n % i.orderClock == 0 then 1 else 0
    ensures Count(Due(i, n, moment), Clock(Positions)) ==
            if i.positionClock > 0 && n % i.positionClock == 0 then 1 else 0
  {
    var orders := if i.orderClock > 0 && n % i.orderClock == 0 then [Clock(Orders)] else [];
    var positions := if i.positionClock > 0 && n % i.positionClock == 0 then [Clock(Positions)] else [];
    var reviews := if i.reviewDue(moment) then [Clock(Reviews)] else [];
    assert Due(i, n, moment) == orders + positions + reviews;
    hide Due;
    CountPlus(orders + positions, reviews, Clock(Orders));
    CountPlus(orders, positions, Clock(Orders));
    CountPlus(orders + positions, reviews, Clock(Positions));
    CountPlus(orders, positions, Clock(Positions));
    FewClocks(orders, Orders);
    FewClocks(positions, Positions);
    FewClocks(reviews, Reviews);
  }

  lemma FewClocks(acts: seq<Act>, which: Which)
    requires acts == [] || acts == [Clock(which)]
    ensures forall w: Which :: Count(acts, Clock(w)) == if w == which then |acts| else 0
  {
  }

  function SleptBy(passes: seq<Pass>): nat
  {
    if passes == [] then 0 else SleptBy(passes[..|passes| - 1]) + passes[|passes| - 1].seconds
  }

  /** Nothing stops the worker, no tick raises, and every heartbeat answers yes. */
  ghost predicate Undisturbed(i: Inputs)
  {
    && (forall c :: !i.stops(c)) && (forall t :: !i.raises(t))
    && forall a :: 0 <= a < |i.answers| ==> i.answers[a]
  }

  lemma {:induction false} AllDone(i: Inputs, n: nat)
    requires Undisturbed(i)
    ensures Done(i, n) == n
  {
    if n > 0 { AllDone(i, n - 1); }
  }

  function Times(k: nat, n: nat): nat
  {
    k * n
  }

  lemma OneMoreTime(k: nat, n: nat)
    requires k > 0
    ensures Times(k, n) == Times(k - 1, n) + n
  {
  }

  /** Undisturbed, every wait takes the whole interval and asks for a heartbeat every twenty seconds of it. */
  lemma {:induction false} AskedSoFar(i: Inputs, passes: seq<Pass>, k: nat)
    requires Undisturbed(i) && AllMade(i, passes) && k <= |passes|
    ensures AskedBy(passes, k) == Times(k, 1 + i.interval / 20) && SleptBy(passes[..k]) == Times(k, i.interval)
  {
    hide Times;
    if k > 0 {
      AskedSoFar(i, passes, k - 1);
      assert InPlace(i, passes, k - 1) && passes[k - 1].seconds == i.interval;
      assert passes[..k][..k - 1] == passes[..k - 1];
      OneMoreTime(k, 1 + i.interval / 20);
      OneMoreTime(k, i.interval);
    } else {
      NoTimes(1 + i.interval / 20);
      NoTimes(i.interval);
    }
  }

  lemma NoTimes(n: nat)
    ensures Times(0, n) == 0
  {
  }

  /** A yes for each of the ticks, and for every twenty seconds of the waits between them. */
  predicate Answered(i: Inputs)
    requires i.maxTicks > 0
  {
    |i.answers| >= i.maxTicks + Times(i.maxTicks - 1, i.interval / 20)
  }

  lemma AnsweredSoFar(i: Inputs, m: nat)
    requires i.maxTicks > 0 && Answered(i) && m < i.maxTicks
    ensures Times(m, 1 + i.interval / 20) < |i.answers|
    ensures m + 1 < i.maxTicks ==> Times(m, 1 + i.interval / 20) + 1 + i.interval / 20 <= |i.answers|
  {
    TimesWithin(m, i.maxTicks - 1, i.interval / 20);
  }

  lemma {:induction false} TimesWithin(m: nat, n: nat, q: nat)
    requires m <= n
    ensures Times(m, 1 + q) <= n + Times(n, q)
    ensures m < n ==> Times(m, 1 + q) + 1 + q <= n + Times(n, q)
  {
    if m == n {
      assert Times(n, 1 + q) == n + Times(n, q);
    } else {
      OneMoreTime(n, q);
      TimesWithin(m, n - 1, q);
    }
  }

  /**
    An undisturbed worker told to make n ticks makes exactly n, with a whole interval between
    two of them, and then releases the lease; a heartbeat for each tick and for every twenty
    seconds of each wait is all it asks.
  */
  lemma TicksExactly(i: Inputs, log: seq<Act>, finished: bool)
    requires Ran(i, log, finished) && Undisturbed(i) && i.maxTicks > 0
    requires |i.answers| >= i.maxTicks + (i.maxTicks - 1) * (i.interval / 20)
    ensures finished && log != [] && log[|log| - 1] == Released
    ensures Count(log, Tick) == i.maxTicks && Count(log, Sleep) == (i.maxTicks - 1) * i.interval
  {
    assert Answered(i);
    hide EndsAfter, Undisturbed, Count, Logs, SleptBy, Answered;
    var passes, tail :| EndsAfter(i, passes, tail, log, finished);
    UndisturbedEnd(i, passes, tail, log, finished);
    LogsCount(i, passes);
    TailCounts(Logs(i, passes));
  }

  lemma UndisturbedEnd(i: Inputs, passes: seq<Pass>, tail: seq<Act>, log: seq<Act>, finished: bool)
    requires EndsAfter(i, passes, tail, log, finished) && Undisturbed(i) && i.maxTicks > 0 && Answered(i)
    ensures |passes| == i.maxTicks - 1 && SleptBy(passes) == Times(|passes|, i.interval)
    ensures finished && log == Logs(i, passes) + [Beat(true), Tick, Released]
  {
    hide Logs, SleptBy, Seconds, AskedBy, ChecksBy, Done, CutShort, Rests, Times, Answered;
    var m := |passes|;
    AllDone(i, m);
    AllDone(i, m + 1);
    if m > 0 { assert InPlace(i, passes, m - 1); }
    AskedSoFar(i, passes, m);
    assert passes[..m] == passes;
    hide AllMade;
    AnsweredSoFar(i, m);
    if m + 1 < i.maxTicks { NeverCut(i, AskedBy(passes, m) + 1, ChecksBy(passes, m) + 1, i.interval / 20); }
  }

  lemma NeverCut(i: Inputs, asked: nat, checks: nat, q: nat)
    requires Undisturbed(i) && q == i.interval / 20 && asked + q <= |i.answers|
    ensures forall tail, finished :: !EndsMidWait(i, asked, checks, tail, finished)
  {
    forall k: nat ensures !CutShort(i, asked, checks, k) {
      TwentyMore(k);
    }
  }

  lemma TailCounts(log: seq<Act>)
    ensures Count(log + [Beat(true), Tick, Released], Tick) == Count(log, Tick) + 1
    ensures Count(log + [Beat(true), Tick, Released], Sleep) == Count(log, Sleep)
  {
    CountHead([Beat(true), Tick], [Released], Tick);
    CountHead([Beat(true), Tick], [Released], Sleep);
    assert [Beat(true), Tick] + [Released] == [Beat(true), Tick, Released];
    CountPlus(log, [Beat(true), Tick, Released], Tick);
    CountPlus(log, [Beat(true), Tick, Released], Sleep);
  }

  // ------------------------------------------------------- many workers, one clock

  /** An operation a worker has read the clock for and not yet run against the row. */
  datatype Pending = Pending(op: Op, stamp: int)

  /** `last` is the clock reading of the last acquire or heartbeat that succeeded. */
  datatype Worker = Worker(pc: Pc, pending: Option<Pending>, last: int)

  datatype State = State(clock: int, row: Option<Row>, workers: map<WorkerId, Worker>)

  datatype Step =
    | Advance(seconds: nat)
    | Begin(w: WorkerId, op: Op)   // the worker reads the clock
    | Commit(w: WorkerId)          // its transaction runs
    | Work(w: WorkerId, act: Act)  // a tick, a clock or a second of sleep
    | Crash(w: WorkerId)           // it dies; a transaction it sent may still run

  const NEW: Worker := Worker(Idle, None, 0)

  function Of(s: State, w: WorkerId): Worker
  {
    if w in s.workers then s.workers[w] else NEW
  }

  predicate MayBegin(pc: Pc, op: Op)
  {
    match op
    case Acquire => pc == Idle
    case Heartbeat => pc.Live?
    case Release => pc.Live? || pc == Lost
  }

  predicate Enabled(s: State, step: Step)
  {
    match step
    case Advance(_) => true
    case Begin(w, op) => Of(s, w).pending == None && MayBegin(Of(s, w).pc, op)
    case Commit(w) => Of(s, w).pending.Some?
    case Work(w, act) =>
      Of(s, w).pending == None && !act.Beat? && !act.Released? && Next(Of(s, w).pc, act).Some?
    case Crash(w) => Of(s, w).pc != Stopped
  }

  /** The worker after its transaction ran, told whether it succeeded. */
  function Told(k: Worker, ok: bool): Worker
    requires k.pending.Some?
  {
    var stamp := k.pending.value.stamp;
    var done := k.(pending := None);
    if k.pc == Crashed then done
    else match k.pending.value.op
      case Acquire => if ok then done.(pc := HELD, last := stamp) else done.(pc := Stopped)
      case Heartbeat =>
        if !k.pc.Live? then done
        else if ok then done.(pc := Next(k.pc, Beat(true)).value, last := stamp)
        else done.(pc := Next(k.pc, Beat(false)).value)
      case Release => done.(pc := Stopped)
  }

  function Apply(s: State, step: Step): State
    requires Enabled(s, step)
  {
    match step
    case Advance(d) => s.(clock := s.clock + d)
    case Begin(w, op) => s.(workers := s.workers[w := Of(s, w).(pending := Some(Pending(op, s.clock)))])
    case Commit(w) =>
      var p := Of(s, w).pending.value;
      s.(row := Transact(s.row, w, p.op, p.stamp),
         workers := s.workers[w := Told(Of(s, w), Succeeds(s.row, w, p.op, p.stamp))])
    case Work(w, act) => s.(workers := s.workers[w := Of(s, w).(pc := Next(Of(s, w).pc, act).value)])
    case Crash(w) => s.(workers := s.workers[w := Of(s, w).(pc := Crashed)])
  }

  /** The state after a run, or nothing when some step of it could not be taken. */
  function After(s: State, run: seq<Step>): Option<State>
  {
    if run == [] then Some(s)
    else
      var before := After(s, run[..|run| - 1]);
      if before.None? || !Enabled(before.value, run[|run| - 1]) then None
      else Some(Apply(before.value, run[|run| - 1]))
  }

  // -------------------------------------------------------------- mutual exclusion

  /** A worker that believes it holds the lease, inside the time its last success bought. */
  predicate Holds(s: State, w: WorkerId)
  {
    Of(s, w).pc.Live? && s.clock < Of(s, w).last + TTL
  }

  predicate Owns(s: State, w: WorkerId)
  {
    s.row.Some? && s.row.value.owner == w
  }

  /** What ties one worker to the row. */
  predicate Tied(s: State, w: WorkerId)
  {
    var k := Of(s, w);
    && (k.pending.Some? ==> k.pending.value.stamp <= s.clock)
    && (k.pending.Some? && k.pc != Crashed ==> MayBegin(k.pc, k.pending.value.op))
    && (k.pc.Live? && Owns(s, w) ==>
          s.row.value.releasedAt == None && s.row.value.expiresAt == k.last + TTL)
    && (k.pc.Live? && !Owns(s, w) ==> k.last + TTL <= s.clock)
    && (k.pc.Live? ==> k.pc.slept <= HEARTBEAT_INTERVAL && k.pc.clocks <= CLOCKS)
  }

  ghost predicate Invariant(s: State)
  {
    forall w: WorkerId :: Tied(s, w)
  }

  predicate Start(s: State)
  {
    s.row == None && s.workers == map[]
  }

  lemma StepKeepsInvariant(s: State, step: Step)
    requires Invariant(s) && Enabled(s, step)
    ensures Invariant(Apply(s, step))
  {
    var t := Apply(s, step);
    forall w: WorkerId ensures Tied(t, w) {
      assert Tied(s, w);
      if step.Commit? {
        assert Tied(s, step.w);
      }
    }
  }

  lemma {:induction false} RunKeepsInvariant(s: State, run: seq<Step>)
    requires Invariant(s) && After(s, run).Some?
    ensures Invariant(After(s, run).value)
  {
    if run != [] {
      RunKeepsInvariant(s, run[..|run| - 1]);
      StepKeepsInvariant(After(s, run[..|run| - 1]).value, run[|run| - 1]);
    }
  }

  /** At every point of every run, at most one worker holds the lease, and it owns the row. */
  lemma AtMostOneHolder(s: State, run: seq<Step>, a: WorkerId, b: WorkerId)
    requires Start(s) && After(s, run).Some?
    requires Holds(After(s, run).value, a) && Holds(After(s, run).value, b)
    ensures a == b && Owns(After(s, run).value, a)
  {
    RunKeepsInvariant(s, run);
    var t := After(s, run).value;
    assert Tied(t, a) && Tied(t, b);
  }

  // ------------------------------------------------------------- a displaced worker

  /** It still runs, and the row has gone to somebody else. */
  predicate Displaced(s: State, w: WorkerId)
  {
    Of(s, w).pc.Live? && s.row.Some? && s.row.value.owner != w
  }

  /** Nothing it can still do gives it the row back. */
  predicate Out(s: State, w: WorkerId)
  {
    && (s.row.Some? && s.row.value.owner != w)
    && Of(s, w).pc != Idle
    && (Of(s, w).pending.Some? ==> Of(s, w).pending.value.op != Acquire)
  }

  /** One step of a worker, whichever clock a clock is. */
  predicate Does(step: Step, w: WorkerId, act: Act)
  {
    step.Work? && step.w == w && (step.act == act || (step.act.Clock? && act.Clock?))
  }

  /** How often the worker did this in a run. */
  function Did(run: seq<Step>, w: WorkerId, act: Act): nat
  {
    if run == [] then 0
    else Did(run[..|run| - 1], w, act) + (if Does(run[|run| - 1], w, act) then 1 else 0)
  }

  /**
    What it may still do without another yes: the tick a heartbeat has already admitted, the
    seconds up to its next heartbeat, and the clocks those seconds leave room for.
  */
  function Left(k: Worker, act: Act): nat
  {
    if !k.pc.Live? then 0
    else match act
      case Tick => if k.pc.admitted then 1 else 0
      case Sleep => if k.pc.slept < HEARTBEAT_INTERVAL then HEARTBEAT_INTERVAL - k.pc.slept else 0
      case Clock(_) =>
        if k.pc.slept < HEARTBEAT_INTERVAL then k.pc.clocks + CLOCKS * (HEARTBEAT_INTERVAL - 1 - k.pc.slept) else 0
      case _ => 0
  }

  lemma OutStaysOut(s: State, step: Step, w: WorkerId, act: Act)
    requires Out(s, w) && Enabled(s, step)
    ensures Out(Apply(s, step), w)
    ensures Left(Of(Apply(s, step), w), act) + (if Does(step, w, act) then 1 else 0) <= Left(Of(s, w), act)
    ensures step == Commit(w) && Of(s, w).pc.Live? && Of(s, w).pending.value.op == Heartbeat ==>
      Of(Apply(s, step), w).pc == Lost
  {
  }

  /**
    Once the row is somebody else's, it stays lost for the rest of any run: every heartbeat
    answers no and ends the loop, and until then the worker does no more than it had left.
  */
  lemma {:induction false} DisplacedRunsDown(s: State, run: seq<Step>, w: WorkerId, act: Act)
    requires Out(s, w) && After(s, run).Some?
    ensures Out(After(s, run).value, w)
    ensures Did(run, w, act) + Left(Of(After(s, run).value, w), act) <= Left(Of(s, w), act)
  {
    if run != [] {
      DisplacedRunsDown(s, run[..|run| - 1], w, act);
      OutStaysOut(After(s, run[..|run| - 1]).value, run[|run| - 1], w, act);
    }
  }

  /**
    From the moment it is displaced a worker starts at most one tick, sleeps at most twenty
    seconds and runs at most sixty clocks, whatever else happens and however long it runs.
  */
  lemma DisplacedStartsNoFurtherTick(s: State, run: seq<Step>, more: seq<Step>, w: WorkerId)
    requires Start(s) && After(s, run).Some? && Displaced(After(s, run).value, w)
    requires After(After(s, run).value, more).Some?
    ensures Did(more, w, Tick) <= (if Of(After(s, run).value, w).pc.admitted then 1 else 0)
    ensures Did(more, w, Sleep) <= HEARTBEAT_INTERVAL
    ensures Did(more, w, Clock(Orders)) <= CLOCKS * HEARTBEAT_INTERVAL
  {
    var t := After(s, run).value;
    DisplacedIsOut(s, run, w);
    RunKeepsInvariant(s, run);
    assert Tied(t, w);
    DisplacedRunsDown(t, more, w, Tick);
    DisplacedRunsDown(t, more, w, Sleep);
    DisplacedRunsDown(t, more, w, Clock(Orders));
  }

  /** A running worker that does not own the row is out for good. */
  lemma DisplacedIsOut(s: State, run: seq<Step>, w: WorkerId)
    requires Start(s) && After(s, run).Some? && Displaced(After(s, run).value, w)
    ensures Out(After(s, run).value, w)
  {
    RunKeepsInvariant(s, run);
    assert Tied(After(s, run).value, w);
  }

  /** A tick that starts inside the time its heartbeat bought is started by the owner alone. */
  lemma TimelyTickIsExclusive(s: State, run: seq<Step>, w: WorkerId)
    requires Start(s) && After(s, run).Some?
    requires Enabled(After(s, run).value, Work(w, Tick))
    requires After(s, run).value.clock < Of(After(s, run).value, w).last + TTL
    ensures Owns(After(s, run).value, w)
    ensures forall v :: Holds(After(s, run).value, v) ==> v == w
  {
    forall v | Holds(After(s, run).value, v) ensures v == w { AtMostOneHolder(s, run, v, w); }
    AtMostOneHolder(s, run, w, w);
  }

  /**
    The one admitted tick is real: a worker held up for the whole TTL between the
    heartbeat's answer and the tick starts it after another worker has taken over.
  */
  lemma PausedWorkerTicksDisplaced()
    ensures
      var run := [Begin(1, Acquire), Commit(1), Begin(1, Heartbeat), Commit(1), Advance(90),
                  Begin(2, Acquire), Commit(2)];
      var t := After(State(0, None, map[]), run);
      t.Some? && Displaced(t.value, 1) && Holds(t.value, 2) && Enabled(t.value, Work(1, Tick))
  {
    var s0 := State(0, None, map[]);
    var run := [Begin(1, Acquire), Commit(1), Begin(1, Heartbeat), Commit(1), Advance(90)];
    var s5 := PausedAfterHeartbeat();
    hide After;
    var s6 := AfterOne(s0, run, s5, Begin(2, Acquire));
    var r6 := run + [Begin(2, Acquire)];
    var s7 := AfterOne(s0, r6, s6, Commit(2));
    assert r6 + [Commit(2)] == [Begin(1, Acquire), Commit(1), Begin(1, Heartbeat), Commit(1), Advance(90),
                                Begin(2, Acquire), Commit(2)];
  }

  /** It acquired, was told yes by a heartbeat, and then stood still for the whole TTL. */
  lemma PausedAfterHeartbeat() returns (t: State)
    ensures t == State(90, Some(Row(1, 0, 0, 90, None)), map[1 := Worker(Live(0, 0, true), None, 0)])
    ensures After(State(0, None, map[]), [Begin(1, Acquire), Commit(1), Begin(1, Heartbeat), Commit(1), Advance(90)])
              == Some(t)
  {
    var s0 := State(0, None, map[]);
    assert After(s0, []) == Some(s0);
    hide After;
    var s1 := AfterOne(s0, [], s0, Begin(1, Acquire));
    var r1 := [] + [Begin(1, Acquire)];
    var s2 := AfterOne(s0, r1, s1, Commit(1));
    var r2 := r1 + [Commit(1)];
    var s3 := AfterOne(s0, r2, s2, Begin(1, Heartbeat));
    var r3 := r2 + [Begin(1, Heartbeat)];
    var s4 := AfterOne(s0, r3, s3, Commit(1));
    var r4 := r3 + [Commit(1)];
    t := AfterOne(s0, r4, s4, Advance(90));
    assert r4 + [Advance(90)] == [Begin(1, Acquire), Commit(1), Begin(1, Heartbeat), Commit(1), Advance(90)];
  }

  lemma AfterOne(s: State, run: seq<Step>, t: State, step: Step) returns (u: State)
    requires After(s, run) == Some(t) && Enabled(t, step)
    ensures u == Apply(t, step) && After(s, run + [step]) == Some(u)
  {
    u := Apply(t, step);
    assert (run + [step])[..|run|] == run;
  }

  /**
    Why release must come last: `heartbeat` does not clear `released_at`, so a worker
    that heartbeats after its own release is told yes and refuses nobody: an acquire by
    another worker succeeds, whatever the clock.
  */
  lemma HeartbeatAfterReleaseProtectsNothing(row: Row, w: WorkerId, v: WorkerId, t0: int, t1: int, t2: int)
    requires v != w && row.owner == w
    ensures
      var released := Transact(Some(row), w, Release, t0);
      var beaten := Transact(released, w, Heartbeat, t1);
      && Succeeds(released, w, Heartbeat, t1)
      && beaten.value.expiresAt == t1 + TTL
      && Succeeds(beaten, v, Acquire, t2)
  {
  }

  /** A crashed holder blocks its replacement for one TTL and no longer. */
  lemma TakeoverAfterCrash(s: State, run: seq<Step>, dead: WorkerId, w: WorkerId, stamp: int)
    requires Start(s) && After(s, run).Some? && dead != w
    requires Holds(After(s, run).value, dead)
    ensures Succeeds(After(s, run).value.row, w, Acquire, stamp)
       <==> stamp >= Of(After(s, run).value, dead).last + TTL
  {
    RunKeepsInvariant(s, run);
    assert Tied(After(s, run).value, dead);
  }
}
