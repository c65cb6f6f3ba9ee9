/**
  The scheduled stop: `scheduler.decide`, and the `tick` of `deploy/scheduler/handler.py`
  that carries its answer out. The clock here counts whole seconds; the calendar minutes.
*/
module Scheduler {
  import opened Wrappers
  import opened Calendar

  const MINUTE: int := 60
  const START_LEAD: int := 60 * MINUTE
  const STOP_LAG: int := 90 * MINUTE
  const MAX_LOCK: int := 24 * 60 * MINUTE
  const LOCK_GRACE: int := 15 * MINUTE
  const EXPIRY_WARNING: int := 30 * MINUTE

  // ------------------------------------------------------------------------- the lock

  /** What the text of the expiry tag reads as. */
  datatype Expiry = Garbled | NoTimezone | At(moment: int)

  /** The session tags: the two recognised keys, and any other key that starts like one. */
  datatype Tags = Tags(until: Option<Expiry>, reason: Option<string>, stray: set<string>)

  const NO_TAGS := Tags(None, None, {})

  datatype Lock = NoLock | Active(until: int) | Expired(until: int) | Invalid

  function ReadLock(tags: Tags, now: int): Lock
  {
    if tags.stray != {} then Invalid
    else match tags.until
      case None => if tags.reason.Some? then Invalid else NoLock
      case Some(Garbled) => Invalid
      case Some(NoTimezone) => Invalid
      case Some(At(until)) =>
        if until <= now then Expired(until)
        else if until - now > MAX_LOCK then Invalid
        else Active(until)
  }

  // ------------------------------------------------------------------------ the rules

  /** A date past the coverage counts as a trading day. */
  predicate InRunWindow(c: Calendar, now: int, coveredUntil: int)
  {
    var day := DayOf(now / MINUTE);
    if day > coveredUntil then true
    else
      var s := SessionOn(c, day);
      s.Some? && s.value.openAt * MINUTE - START_LEAD <= now < s.value.closeAt * MINUTE + STOP_LAG
  }

  datatype Status = Running | Stopped | Changing

  datatype Readiness = Readiness(ok: bool, openPositions: nat, workingOrders: nat, unresolvedIncidents: nat)

  datatype Action = Start | Stop | Leave

  datatype Alert = LockRewritten | LockEnding | NoCalendar | StopSkipped

  /** `asked`: whether the server was asked if stopping is safe. */
  datatype Decision = Decision(action: Action, alerts: seq<Alert>, retagUntil: Option<int>, asked: bool)

  function Decide(now: int, status: Status, tags: Tags, calendar: Option<Calendar>, coveredUntil: int,
                  ready: Readiness): Decision
  {
    var lock := ReadLock(tags, now);
    var wake := if status == Stopped then Start else Leave;
    if lock == Invalid then Decision(wake, [LockRewritten], Some(now + MAX_LOCK), false)
    else if lock.Active? then
      Decision(wake, if lock.until - now <= EXPIRY_WARNING then [LockEnding] else [], None, false)
    else if calendar == None then Decision(Leave, [NoCalendar], None, false)
    else if InRunWindow(calendar.value, now, coveredUntil) then Decision(wake, [], None, false)
    else if status != Running then Decision(Leave, [], None, false)
    else if lock.Expired? && now < lock.until + LOCK_GRACE then Decision(Leave, [], None, false)
    else if !ready.ok then
      if (ready.openPositions > 0 || ready.workingOrders > 0) && ready.unresolvedIncidents == 0
      then Decision(Leave, [], None, true)
      else Decision(Leave, [StopSkipped], None, true)
    else Decision(Stop, [], None, true)
  }

  /**
    A stop needs all of it at once: a running server, a loaded calendar, a moment
    outside the run window, no lock inside its time or grace, and a server that says it
    is ready, which is asked only when everything else already allows the stop.
  */
  lemma StopNeedsEverything(now: int, status: Status, tags: Tags, calendar: Option<Calendar>, coveredUntil: int,
                            ready: Readiness)
    ensures var d := Decide(now, status, tags, calendar, coveredUntil, ready);
      var lock := ReadLock(tags, now);
      && (d.asked <==>
            && status == Running && calendar.Some? && !InRunWindow(calendar.value, now, coveredUntil)
            && (lock == NoLock || (lock.Expired? && now >= lock.until + LOCK_GRACE)))
      && (d.action == Stop <==> d.asked && ready.ok)
      && (d.retagUntil.Some? <==> lock == Invalid)
  {
  }

  // ------------------------------------------------------------------------- the tick

  /** How the cloud answers each of a tick's calls. */
  datatype Answers = Answers(retag: bool, start: bool, stop: bool, ready: Readiness)

  datatype Event = Rewrote(until: int) | StartIssued | StopIssued

  datatype World = World(status: Status, tags: Tags)

  /** The rewrite sets the two recognised tags and deletes none. */
  function Rewritten(tags: Tags, until: int): Tags
  {
    tags.(until := Some(At(until)), reason := Some(if tags.reason.Some? then tags.reason.value else "rewritten"))
  }

  /** One tick's effect on the instance, and what it did. A failed stop raises, after which nothing else happens. */
  function Effect(w: World, d: Decision, live: bool, answers: Answers): (World, seq<Event>)
  {
    if !live then (w, [])
    else
      var retagged := d.retagUntil.Some? && answers.retag;
      var tags := if retagged then Rewritten(w.tags, d.retagUntil.value) else w.tags;
      var first := if retagged then [Rewrote(d.retagUntil.value)] else [];
      if d.action == Start && answers.start then (World(Changing, tags), first + [StartIssued])
      else if d.action == Stop && answers.stop then (World(Changing, tags), first + [StopIssued])
      else (World(w.status, tags), first)
  }

  class Instance {
    var status: Status
    var tags: Tags

    constructor (status: Status, tags: Tags)
      ensures Value() == World(status, tags)
    {
      this.status, this.tags := status, tags;
    }

    function Value(): World
      reads this
    {
      World(status, tags)
    }

    /** Gathers the inputs, asks `Decide`, and carries its answer out call by call. */
    method Tick(now: int, live: bool, c: Calendar, coveredUntil: int, answers: Answers)
      returns (done: seq<Event>, raised: bool)
      modifies this
      ensures var d := Decide(now, old(status), old(tags), Some(c), coveredUntil, answers.ready);
        && Value() == Effect(old(Value()), d, live, answers).0
        && done == Effect(old(Value()), d, live, answers).1
        && (raised <==> live && d.action == Stop && !answers.stop)
    {
      hide Decide;
      done, raised := [], false;
      var d := Decide(now, status, tags, Some(c), coveredUntil, answers.ready);
      if d.retagUntil.Some? && live && answers.retag {
        tags := Rewritten(tags, d.retagUntil.value);
        done := done + [Rewrote(d.retagUntil.value)];
      }
      match d.action {
        case Start =>
          if live && answers.start {
            status := Changing;
            done := done + [StartIssued];
          }
        case Stop =>
          if live {
            if !answers.stop { return done, true; }
            status := Changing;
            done := done + [StopIssued];
          }
        case Leave =>
      }
    }
  }

  // ---------------------------------------------------------------------------- runs

  datatype Step =
    | Tick(now: int, live: bool, answers: Answers)
    | Owner(tags: Tags)       // session.py rewrites the tags
    | Cloud(status: Status)   // the instance changes by itself

  datatype Schedule = Schedule(calendar: Calendar, coveredUntil: int)

  function DecisionAt(w: World, s: Schedule, step: Step): Decision
    requires step.Tick?
  {
    Decide(step.now, w.status, w.tags, Some(s.calendar), s.coveredUntil, step.answers.ready)
  }

  function After(w: World, s: Schedule, step: Step): World
  {
    match step
    case Tick(now, live, answers) => Effect(w, DecisionAt(w, s, step), live, answers).0
    case Owner(tags) => w.(tags := tags)
    case Cloud(status) => w.(status := status)
  }

  function Done(w: World, s: Schedule, step: Step): seq<Event>
  {
    match step
    case Tick(now, live, answers) => Effect(w, DecisionAt(w, s, step), live, answers).1
    case Owner(_) => []
    case Cloud(_) => []
  }

  /** A run: one more world than steps, and ticks in time order. */
  ghost predicate IsRun(s: Schedule, worlds: seq<World>, steps: seq<Step>)
  {
    && |worlds| == |steps| + 1
    && (forall i :: 0 <= i < |steps| ==> worlds[i + 1] == After(worlds[i], s, steps[i]))
    && (forall i, j :: 0 <= i < j < |steps| && steps[i].Tick? && steps[j].Tick? ==> steps[i].now <= steps[j].now)
  }

  predicate Untouched(steps: seq<Step>, from: nat)
  {
    forall i :: from <= i < |steps| ==> !steps[i].Owner?
  }

  // --------------------------------------------------------- an active lock is honoured

  /** While it stands unexpired or in its grace, nothing in a tick stops the server. */
  lemma LockForbidsStop(w: World, s: Schedule, step: Step, until: int)
    requires step.Tick? && w.tags.until == Some(At(until)) && step.now < until + LOCK_GRACE
    ensures StopIssued !in Done(w, s, step)
    ensures w.tags.stray == {} && until - step.now <= MAX_LOCK ==> After(w, s, step).tags == w.tags
  {
  }

  /** A valid lock placed at `from` and left alone forbids every stop until its expiry and grace have passed. */
  lemma {:induction false} LockHeldForbidsStops(s: Schedule, worlds: seq<World>, steps: seq<Step>, from: nat, i: nat,
                                                placed: int, until: int)
    requires IsRun(s, worlds, steps) && Untouched(steps, from)
    requires from <= i <= |steps|
    requires worlds[from].tags.until == Some(At(until)) && worlds[from].tags.stray == {}
    requires until - placed <= MAX_LOCK
    requires forall k :: from <= k < |steps| && steps[k].Tick? ==> placed <= steps[k].now
    ensures worlds[i].tags == worlds[from].tags
    ensures i < |steps| && steps[i].Tick? && steps[i].now < until + LOCK_GRACE ==>
              StopIssued !in Done(worlds[i], s, steps[i])
  {
    if from < i {
      LockHeldForbidsStops(s, worlds, steps, from, i - 1, placed, until);
      KeepsReadable(worlds[i - 1], s, steps[i - 1], until);
    }
    if i < |steps| && steps[i].Tick? && steps[i].now < until + LOCK_GRACE {
      LockForbidsStop(worlds[i], s, steps[i], until);
    }
  }

  /** A readable lock no further ahead than the cap is never rewritten. */
  lemma KeepsReadable(w: World, s: Schedule, step: Step, until: int)
    requires w.tags.until == Some(At(until)) && w.tags.stray == {} && !step.Owner?
    requires step.Tick? ==> until - step.now <= MAX_LOCK
    ensures After(w, s, step).tags == w.tags
  {
  }

  // ---------------------------------------------------------------- starts and no starts

  /** No session's window, an hour before its open to an hour and a half past its close, leaves its date. */
  ghost predicate WindowsStayOnDate(c: Calendar)
  {
    forall session :: session in c ==>
      && session.day * DAY * MINUTE <= session.openAt * MINUTE - START_LEAD
      && session.closeAt * MINUTE + STOP_LAG <= (session.day + 1) * DAY * MINUTE
  }

  /** For such a calendar a stopped server is started by every live tick inside some session's window. */
  lemma StoppedServerIsStarted(w: World, s: Schedule, step: Step, session: Session)
    requires IsCalendar(s.calendar) && WindowsStayOnDate(s.calendar) && session in s.calendar
    requires step.Tick? && step.live && step.answers.start && w.status == Stopped
    requires session.openAt * MINUTE - START_LEAD <= step.now < session.closeAt * MINUTE + STOP_LAG
    ensures StartIssued in Done(w, s, step)
  {
    assert session.day * DAY <= step.now / MINUTE < (session.day + 1) * DAY;
    assert DayOf(step.now / MINUTE) == session.day;
    StartedOnItsDate(w, s, step, session);
  }

  /** Whatever the calendar, so does every live tick in the window that falls on the session's date. */
  lemma StartedOnItsDate(w: World, s: Schedule, step: Step, session: Session)
    requires IsCalendar(s.calendar) && session in s.calendar
    requires step.Tick? && step.live && step.answers.start && w.status == Stopped
    requires DayOf(step.now / MINUTE) == session.day
    requires session.openAt * MINUTE - START_LEAD <= step.now < session.closeAt * MINUTE + STOP_LAG
    ensures StartIssued in Done(w, s, step)
  {
    SessionOnIts(s.calendar, session);
  }

  /** Nothing about the lock asks for a start, now or later, while the tags stay as they are. */
  predicate Quiet(tags: Tags, now: int)
  {
    ReadLock(tags, now) == NoLock || ReadLock(tags, now).Expired?
  }

  /**
    After a stop, no start is issued until the owner changes the tags or a run window
    (the days past the coverage included) begins.
  */
  lemma {:induction false} NoStartAfterStop(s: Schedule, worlds: seq<World>, steps: seq<Step>, at: nat, i: nat)
    requires IsRun(s, worlds, steps)
    requires at < i <= |steps| && steps[at].Tick? && StopIssued in Done(worlds[at], s, steps[at])
    requires Untouched(steps, at)
    requires forall k :: at < k < |steps| && steps[k].Tick? ==> !InRunWindow(s.calendar, steps[k].now, s.coveredUntil)
    ensures worlds[i].tags == worlds[at].tags
    ensures i < |steps| ==> StartIssued !in Done(worlds[i], s, steps[i])
  {
    hide InRunWindow, Done, After, Quiet;
    StopMeansQuiet(worlds[at], s, steps[at]);
    assert worlds[i] == After(worlds[i - 1], s, steps[i - 1]);
    if i > at + 1 {
      NoStartAfterStop(s, worlds, steps, at, i - 1);
      QuietStep(worlds[i - 1], s, steps[i - 1], steps[at].now);
    }
    if i < |steps| { QuietStep(worlds[i], s, steps[i], steps[at].now); }
  }

  /** A step that is not the owner's, outside every run window, under tags that ask for nothing. */
  lemma QuietStep(w: World, s: Schedule, step: Step, since: int)
    requires Quiet(w.tags, since) && !step.Owner?
    requires step.Tick? ==> since <= step.now && !InRunWindow(s.calendar, step.now, s.coveredUntil)
    ensures After(w, s, step).tags == w.tags && StartIssued !in Done(w, s, step)
  {
    hide InRunWindow;
    if step.Tick? { QuietStays(w.tags, since, step.now); }
  }

  lemma StopMeansQuiet(w: World, s: Schedule, step: Step)
    requires step.Tick? && StopIssued in Done(w, s, step)
    ensures Quiet(w.tags, step.now) && After(w, s, step).tags == w.tags
  {
  }

  lemma QuietStays(tags: Tags, now: int, later: int)
    requires Quiet(tags, now) && now <= later
    ensures Quiet(tags, later)
  {
  }

  // --------------------------------------------------------------- an invalid lock ends

  /** Every tick is live and every rewrite it asks for succeeds. */
  ghost predicate Effective(steps: seq<Step>)
  {
    forall i :: 0 <= i < |steps| ==> !steps[i].Owner? && (steps[i].Tick? ==> steps[i].live && steps[i].answers.retag)
  }

  predicate Rewrites(w: World, s: Schedule, step: Step)
  {
    exists e :: e in Done(w, s, step) && e.Rewrote?
  }

  /** The tags are readable for good: no tick from now on finds them invalid. */
  predicate Settled(tags: Tags, now: int)
  {
    tags.stray == {} && (Quiet(tags, now) || ReadLock(tags, now).Active?)
  }

  lemma SettledStays(w: World, s: Schedule, step: Step, now: int)
    requires Settled(w.tags, now) && !step.Owner? && (step.Tick? ==> now <= step.now)
    ensures After(w, s, step).tags == w.tags
    ensures !Rewrites(w, s, step)
    ensures step.Tick? ==> Settled(w.tags, step.now)
  {
  }

  /** The first tick settles the tags: it rewrites an invalid lock, and leaves any other. */
  lemma FirstTickSettles(w: World, s: Schedule, step: Step)
    requires step.Tick? && step.live && step.answers.retag && w.tags.stray == {}
    ensures var t := After(w, s, step).tags;
      && Settled(t, step.now)
      && (t.until.Some? ==> t.until.value.At? && t.until.value.moment <= step.now + MAX_LOCK)
      && (t.until == None ==> t == w.tags && t.reason == None)
    ensures Rewrites(w, s, step) <==> ReadLock(w.tags, step.now) == Invalid
  {
    if ReadLock(w.tags, step.now) == Invalid {
      assert Rewrote(step.now + MAX_LOCK) in Done(w, s, step);
    }
  }

  lemma {:induction false} SettledRun(s: Schedule, worlds: seq<World>, steps: seq<Step>, from: nat, i: nat, now: int)
    requires IsRun(s, worlds, steps) && Effective(steps)
    requires from <= i <= |steps| && Settled(worlds[from].tags, now)
    requires forall k :: from <= k < |steps| && steps[k].Tick? ==> now <= steps[k].now
    ensures worlds[i].tags == worlds[from].tags
    ensures i < |steps| ==> !Rewrites(worlds[i], s, steps[i])
  {
    if from < i {
      SettledRun(s, worlds, steps, from, i - 1, now);
      SettledStays(worlds[i - 1], s, steps[i - 1], now);
    }
    if i < |steps| { SettledStays(worlds[i], s, steps[i], now); }
  }

  /** Until the first tick nothing touches the tags. */
  lemma {:induction false} UntilTheFirstTick(s: Schedule, worlds: seq<World>, steps: seq<Step>, i: nat)
    requires IsRun(s, worlds, steps) && Effective(steps) && i <= |steps|
    requires forall k :: 0 <= k < i ==> !steps[k].Tick?
    ensures worlds[i].tags == worlds[0].tags
    ensures i < |steps| && !steps[i].Tick? ==> !Rewrites(worlds[i], s, steps[i])
  {
    if i > 0 {
      UntilTheFirstTick(s, worlds, steps, i - 1);
      assert worlds[i] == After(worlds[i - 1], s, steps[i - 1]);
    }
  }

  /**
    With no unrecognised session key, untouched tags and rewrites that succeed, no step of
    the run but the first tick rewrites the lock; and from 24 hours and 15 minutes after
    that tick the lock decides nothing: every tick answers as if there were no tags at all.
  */
  lemma LockRunsOut(s: Schedule, worlds: seq<World>, steps: seq<Step>, first: nat, i: nat)
    requires IsRun(s, worlds, steps) && Effective(steps) && worlds[0].tags.stray == {}
    requires first < |steps| && steps[first].Tick? && forall k :: 0 <= k < first ==> !steps[k].Tick?
    requires i < |steps| && i != first
    ensures !Rewrites(worlds[i], s, steps[i])
    ensures steps[i].Tick? && steps[i].now >= steps[first].now + MAX_LOCK + LOCK_GRACE ==>
      DecisionAt(worlds[i], s, steps[i]) == DecisionAt(worlds[i].(tags := NO_TAGS), s, steps[i])
  {
    hide InRunWindow;
    if i < first {
      UntilTheFirstTick(s, worlds, steps, i);
    } else {
      UntilTheFirstTick(s, worlds, steps, first);
      FirstTickSettles(worlds[first], s, steps[first]);
      SettledRun(s, worlds, steps, first + 1, i, steps[first].now);
    }
  }

  /**
    An unrecognised key outlives every rewrite, so the lock stays invalid at every tick:
    each live one rewrites it again, and no tick of the run ever stops the server.
  */
  lemma {:induction false} StrayKeyPinsTheServer(s: Schedule, worlds: seq<World>, steps: seq<Step>, i: nat)
    requires IsRun(s, worlds, steps) && Effective(steps) && worlds[0].tags.stray != {}
    requires i <= |steps|
    ensures worlds[i].tags.stray == worlds[0].tags.stray
    ensures i < |steps| ==> StopIssued !in Done(worlds[i], s, steps[i])
    ensures i < |steps| && steps[i].Tick? ==> Rewrites(worlds[i], s, steps[i])
  {
    hide InRunWindow;
    if i > 0 {
      StrayKeyPinsTheServer(s, worlds, steps, i - 1);
      assert worlds[i] == After(worlds[i - 1], s, steps[i - 1]);
    }
    if i < |steps| && steps[i].Tick? {
      assert Rewrote(steps[i].now + MAX_LOCK) in Done(worlds[i], s, steps[i]);
    }
  }

  // ------------------------------------------------------------ what a tick does, exactly

  /** The tags hold a lock that is badly written: a stray key, half a lock, an unreadable or too distant expiry. */
  predicate BadLock(tags: Tags, now: int)
  {
    || tags.stray != {}
    || (tags.until == None && tags.reason.Some?)
    || tags.until == Some(Garbled) || tags.until == Some(NoTimezone)
    || (tags.until.Some? && tags.until.value.At? && tags.until.value.moment > now + 86400)
  }

  /** A well-written lock whose time has not come. */
  predicate GoodLock(tags: Tags, now: int)
  {
    && tags.stray == {} && tags.until.Some? && tags.until.value.At?
    && now < tags.until.value.moment <= now + 86400
  }

  /** No lock at all, or one that ended at least a quarter of an hour ago. */
  predicate LockOver(tags: Tags, now: int)
  {
    && tags.stray == {}
    && ((tags.until == None && tags.reason == None)
        || (tags.until.Some? && tags.until.value.At? && tags.until.value.moment + 900 <= now))
  }

  /** The moment lies between an hour before the open and an hour and a half past the close of a session of its date. */
  predicate NearSession(c: Calendar, now: int)
  {
    exists s :: s in c && s.day == now / 86400 && s.openAt * 60 - 3600 <= now < s.closeAt * 60 + 5400
  }

  /** On a covered date the schedule wants the server exactly near a session; past the coverage always. */
  lemma RunWindowReads(c: Calendar, now: int, coveredUntil: int)
    requires IsCalendar(c)
    ensures InRunWindow(c, now, coveredUntil) <==> now / 86400 > coveredUntil || NearSession(c, now)
  {
    assert now / 60 / 1440 == now / 86400;
    if s :| s in c && s.day == now / 86400 { SessionOnIts(c, s); }
    forall s | s in c && s.day == now / 86400 ensures SessionOn(c, now / 86400) == Some(s) { SessionOnIts(c, s); }
  }

  /**
    A running server is stopped by a live tick exactly when no lock is in its time or grace,
    the server says it is ready, the date is covered, and no session of it is near.
  */
  lemma RunningServerIsStopped(w: World, s: Schedule, step: Step)
    requires IsCalendar(s.calendar) && step.Tick? && step.live && step.answers.stop && w.status == Running
    ensures StopIssued in Done(w, s, step) <==>
      && LockOver(w.tags, step.now) && step.answers.ready.ok
      && step.now / 86400 <= s.coveredUntil && !NearSession(s.calendar, step.now)
    ensures StopIssued in Done(w, s, step) ==> After(w, s, step) == World(Changing, w.tags)
    ensures StartIssued !in Done(w, s, step)
  {
    RunWindowReads(s.calendar, step.now, s.coveredUntil);
    hide InRunWindow, NearSession;
  }

  /**
    A stopped server is started by a live tick exactly when a lock wants it, a badly written
    one included, or with no lock in its time, near a session or past the coverage.
  */
  lemma StoppedServerIsStartedExactly(w: World, s: Schedule, step: Step)
    requires IsCalendar(s.calendar) && step.Tick? && step.live && step.answers.start && w.status == Stopped
    ensures StartIssued in Done(w, s, step) <==>
      || BadLock(w.tags, step.now) || GoodLock(w.tags, step.now)
      || step.now / 86400 > s.coveredUntil || NearSession(s.calendar, step.now)
    ensures StartIssued in Done(w, s, step) ==> After(w, s, step).status == Changing
    ensures StopIssued !in Done(w, s, step)
  {
    RunWindowReads(s.calendar, step.now, s.coveredUntil);
    hide InRunWindow, NearSession;
  }

  /** A badly written lock, and no other, is rewritten: to 24 hours from now, its reason kept and no key removed. */
  lemma RewritesReads(w: World, s: Schedule, step: Step, until: int)
    requires step.Tick?
    ensures Rewrote(until) in Done(w, s, step) <==>
      step.live && step.answers.retag && BadLock(w.tags, step.now) && until == step.now + 86400
    ensures Rewrote(until) in Done(w, s, step) ==>
      var tags := After(w, s, step).tags;
      && tags.until == Some(At(until)) && tags.stray == w.tags.stray
      && (w.tags.reason.Some? ==> tags.reason == w.tags.reason) && tags.reason.Some?
    ensures (forall u :: Rewrote(u) !in Done(w, s, step)) ==> After(w, s, step).tags == w.tags
  {
    hide InRunWindow;
    if step.live && step.answers.retag && BadLock(w.tags, step.now) {
      assert Rewrote(step.now + 86400) in Done(w, s, step);
    }
  }

  /** Nothing is done, and nothing changes, by a tick that is not live or finds the server changing with no bad lock. */
  lemma IdleTick(w: World, s: Schedule, step: Step)
    requires step.Tick? && (!step.live || (w.status == Changing && !BadLock(w.tags, step.now)))
    ensures Done(w, s, step) == [] && After(w, s, step) == w
  {
    hide InRunWindow;
  }

  /** The alerts: a rewritten lock, a lock within half an hour of its end, no calendar, and a stop that was not safe. */
  lemma AlertsRead(now: int, status: Status, tags: Tags, calendar: Option<Calendar>, coveredUntil: int,
                   ready: Readiness)
    ensures var d := Decide(now, status, tags, calendar, coveredUntil, ready);
      && (LockRewritten in d.alerts <==> BadLock(tags, now))
      && (LockEnding in d.alerts <==> GoodLock(tags, now) && tags.until.value.moment <= now + 1800)
      && (NoCalendar in d.alerts <==> !BadLock(tags, now) && !GoodLock(tags, now) && calendar == None)
      && (StopSkipped in d.alerts <==>
            && d.asked && !ready.ok
            && ((ready.openPositions == 0 && ready.workingOrders == 0) || ready.unresolvedIncidents > 0))
  {
    hide InRunWindow;
  }
}
