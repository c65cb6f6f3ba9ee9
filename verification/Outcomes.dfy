/**
  Outcome reviews of `outcomes.py`: one job per decision and horizon, resolved from the
  earliest stored observation that lies far enough past the decision. The database is
  four collections; a review pass or a call of `ensure_jobs` is one transaction.
*/
module Outcomes {
  import opened Wrappers
  import opened Contracts
  import opened Calendar
  import Arrange

  datatype Horizon = T1 | T3

  const HORIZONS: seq<Horizon> := [T1, T3]

  function Sessions(h: Horizon): int
  {
    match h case T1 => 1 case T3 => 3
  }

  datatype Decision = Decision(id: nat, decidedAt: int, snapshot: nat, traded: bool, direction: Direction,
                               policy: string)

  datatype Seen = Seen(id: nat, name: string, time: int, price: real)

  datatype JobState = Pending | Complete

  datatype Job = Job(decision: nat, horizon: Horizon, decidedAt: int, policy: string,
                     state: JobState, resolvedAt: Option<int>)

  datatype Outcome = Outcome(
    traded: bool, observed: string, observedAt: int, sessionsElapsed: int,
    atDecision: real, atHorizon: real, change: real, agreed: Option<bool>, policy: string)

  type Key = (nat, Horizon)

  datatype Db = Db(decisions: map<nat, Decision>, snapshots: seq<Seen>, jobs: seq<Job>, outcomes: map<Key, Outcome>)

  function KeyOf(j: Job): Key { (j.decision, j.horizon) }

  // ------------------------------------------------------------ the linear-scan answer

  /** Far enough past the decision, by a scan over every close. */
  ghost predicate Qualifies(c: Calendar, decidedAt: int, sessions: int, s: Seen)
  {
    |ClosedIn(c, decidedAt, s.time)| >= sessions
  }

  /** The qualifying observation with the least time; the first stored of those that share it. */
  ghost function Earliest(snapshots: seq<Seen>, c: Calendar, decidedAt: int, sessions: int): Option<Seen>
  {
    if snapshots == [] then None
    else
      var last := snapshots[|snapshots| - 1];
      var e := Earliest(snapshots[..|snapshots| - 1], c, decidedAt, sessions);
      if Qualifies(c, decidedAt, sessions, last) && (e == None || last.time < e.value.time) then Some(last) else e
  }

  function ById(snapshots: seq<Seen>, id: nat): (r: Option<Seen>)
    ensures r.Some? ==> r.value in snapshots && r.value.id == id
    ensures r == None ==> forall s :: s in snapshots ==> s.id != id
  {
    if snapshots == [] then None
    else
      var last := snapshots[|snapshots| - 1];
      assert snapshots == snapshots[..|snapshots| - 1] + [last];
      if last.id == id then Some(last) else ById(snapshots[..|snapshots| - 1], id)
  }

  function DirectionAgreed(d: Direction, change: real): Option<bool>
  {
    if change == 0.0 || d == Neutral then None
    else if d == Bullish then Some(change > 0.0) else Some(change < 0.0)
  }

  function Record(d: Decision, policy: string, first: Seen, horizon: Seen, elapsed: int): Outcome
  {
    Outcome(d.traded, horizon.name, horizon.time, elapsed, first.price, horizon.price,
            horizon.price - first.price, DirectionAgreed(d.direction, horizon.price - first.price), policy)
  }

  /** The outcome the stored observations give one decision at one horizon, if they give one. */
  ghost function OutcomeFor(db: Db, c: Calendar, key: Key): Option<Outcome>
  {
    if key.0 !in db.decisions then None
    else
      var d := db.decisions[key.0];
      var e := Earliest(db.snapshots, c, d.decidedAt, Sessions(key.1));
      var first := ById(db.snapshots, d.snapshot);
      if e == None || first == None then None
      else Some(Record(d, d.policy, first.value, e.value, |ClosedIn(c, d.decidedAt, e.value.time)|))
  }

  // -------------------------------------------------------------------- the invariant

  ghost predicate Valid(db: Db)
  {
    && (forall id :: id in db.decisions ==> db.decisions[id].id == id)
    && (forall i, j :: 0 <= i < j < |db.jobs| ==> KeyOf(db.jobs[i]) != KeyOf(db.jobs[j]))
    && (forall i, j :: 0 <= i < j < |db.snapshots| ==> db.snapshots[i].id != db.snapshots[j].id)
    && (forall i :: 0 <= i < |db.jobs| ==>
          var j := db.jobs[i];
          && j.decision in db.decisions
          && j.decidedAt == db.decisions[j.decision].decidedAt && j.policy == db.decisions[j.decision].policy
          && (j.state == Complete <==> KeyOf(j) in db.outcomes))
    && (forall k :: k in db.outcomes ==> exists i :: 0 <= i < |db.jobs| && KeyOf(db.jobs[i]) == k)
  }

  /** Every stored outcome is the one the linear scan gives, whenever it was written. */
  ghost predicate Faithful(db: Db, c: Calendar)
  {
    forall k :: k in db.outcomes ==> OutcomeFor(db, c, k) == Some(db.outcomes[k])
  }

  // ------------------------------------------------------------------ the review pass

  function SessionsElapsed(c: Calendar, decidedAt: int, moment: int): nat
    requires IsCalendar(c)
  {
    if moment <= decidedAt then 0 else CompletedBetween(c, decidedAt, moment)
  }

  /** A review pass at `now` resolves this job. */
  ghost predicate Resolves(db: Db, c: Calendar, now: int, j: Job)
  {
    && j.state == Pending
    && |ClosedIn(c, j.decidedAt, now)| >= Sessions(j.horizon)
    && OutcomeFor(db, c, KeyOf(j)).Some?
  }

  ghost function AfterPass(db: Db, c: Calendar, now: int, j: Job): Job
  {
    if Resolves(db, c, now, j) then j.(state := Complete, resolvedAt := Some(now)) else j
  }

  /** The effect of a review pass on its first `n` jobs. */
  ghost predicate PassedTo(db: Db, t: Db, c: Calendar, now: int, n: nat)
    requires n <= |db.jobs|
  {
    && t.decisions == db.decisions && t.snapshots == db.snapshots
    && |t.jobs| == |db.jobs|
    && (forall i :: 0 <= i < n ==> t.jobs[i] == AfterPass(db, c, now, db.jobs[i]))
    && (forall i :: n <= i < |db.jobs| ==> t.jobs[i] == db.jobs[i])
    && (forall k :: k in db.outcomes ==> k in t.outcomes && t.outcomes[k] == db.outcomes[k])
    && (forall k :: k in t.outcomes && k !in db.outcomes ==> Resolved(db, c, now, k, n))
    && (forall i :: 0 <= i < n && Resolves(db, c, now, db.jobs[i]) ==>
          KeyOf(db.jobs[i]) in t.outcomes
          && Some(t.outcomes[KeyOf(db.jobs[i])]) == OutcomeFor(db, c, KeyOf(db.jobs[i])))
  }

  /** The whole effect: each pending job past its horizon completes, with the outcome the scan gives. */
  ghost predicate IsReviewed(db: Db, t: Db, c: Calendar, now: int)
  {
    PassedTo(db, t, c, now, |db.jobs|)
  }

  /** One of the first `n` jobs carries this key and is resolved by the pass. */
  ghost predicate Resolved(db: Db, c: Calendar, now: int, k: Key, n: int)
    requires n <= |db.jobs|
  {
    exists i :: 0 <= i < n && KeyOf(db.jobs[i]) == k && Resolves(db, c, now, db.jobs[i])
  }

  // ------------------------------------------------------------- sorting and searching

  predicate InOrder(s: seq<Seen>)
  {
    forall i, j :: 0 <= i < j < |s| ==> s[i].time <= s[j].time
  }

  function TimeOf(s: Seen): Arrange.Key { (s.time, 0) }

  /** `ORDER BY source_time`, rows of one time in stored order. */
  function ByTime(s: seq<Seen>): (r: seq<Seen>)
    ensures InOrder(r) && forall y :: y in r <==> y in s
  {
    Arrange.SortSorts(s, TimeOf);
    Arrange.SortPermutes(s, TimeOf);
    Arrange.SortBy(s, TimeOf)
  }

  /** The first of a list that qualifies. */
  ghost function First(s: seq<Seen>, c: Calendar, decidedAt: int, sessions: int): (r: Option<Seen>)
    ensures r.Some? ==> r.value in s
  {
    if s == [] then None
    else
      assert s == s[..|s| - 1] + [s[|s| - 1]];
      var f := First(s[..|s| - 1], c, decidedAt, sessions);
      if f.Some? then f
      else if Qualifies(c, decidedAt, sessions, s[|s| - 1]) then Some(s[|s| - 1]) else None
  }

  lemma {:induction false} FirstOfInsert(x: Seen, s: seq<Seen>, c: Calendar, decidedAt: int, sessions: int)
    requires InOrder(s)
    ensures var f := First(s, c, decidedAt, sessions);
      First(Arrange.Insert(x, s, TimeOf), c, decidedAt, sessions)
      == if Qualifies(c, decidedAt, sessions, x) && (f == None || x.time < f.value.time) then Some(x) else f
  {
    hide Qualifies;
    if s == [] || s[|s| - 1].time <= x.time {
      assert (s + [x])[..|s|] == s;
    } else {
      var front := s[..|s| - 1];
      var r := Arrange.Insert(x, front, TimeOf);
      FirstOfInsert(x, front, c, decidedAt, sessions);
      assert (r + [s[|s| - 1]])[..|r|] == r;
    }
  }

  /** The first qualifying row in time order is the earliest qualifying row. */
  lemma {:induction false} FirstIsEarliest(s: seq<Seen>, c: Calendar, decidedAt: int, sessions: int)
    ensures First(ByTime(s), c, decidedAt, sessions) == Earliest(s, c, decidedAt, sessions)
  {
    hide Qualifies;
    if s != [] {
      FirstIsEarliest(s[..|s| - 1], c, decidedAt, sessions);
      FirstOfInsert(s[|s| - 1], ByTime(s[..|s| - 1]), c, decidedAt, sessions);
    }
  }

  lemma {:induction false} FirstAt(s: seq<Seen>, c: Calendar, decidedAt: int, sessions: int, k: nat)
    requires k <= |s|
    requires forall i :: 0 <= i < k ==> !Qualifies(c, decidedAt, sessions, s[i])
    requires k < |s| ==> Qualifies(c, decidedAt, sessions, s[k])
    ensures First(s, c, decidedAt, sessions) == if k < |s| then Some(s[k]) else None
  {
    hide Qualifies;
    if s != [] {
      var front := s[..|s| - 1];
      if k < |s| { FirstAt(front, c, decidedAt, sessions, k); }
      else { FirstAt(front, c, decidedAt, sessions, |front|); }
    }
  }

  /** Every recorded observation once, in time order, with its completed-session count. */
  datatype Observations = Observations(rows: seq<Seen>, closes: seq<int>)

  function Load(snapshots: seq<Seen>, c: Calendar): (o: Observations)
    requires IsCalendar(c)
  {
    var rows := ByTime(snapshots);
    Observations(rows, seq(|rows|, i requires 0 <= i < |rows| => ClosesThrough(c, rows[i].time)))
  }

  lemma LoadAscends(snapshots: seq<Seen>, c: Calendar)
    requires IsCalendar(c)
    ensures Ascending(Load(snapshots, c).closes)
  {
    var o := Load(snapshots, c);
    forall i, j | 0 <= i < j < |o.closes| ensures o.closes[i] <= o.closes[j] {
      ClosesThroughMonotone(c, o.rows[i].time, o.rows[j].time);
    }
  }

  /** The earliest observation at or after the horizon, by binary search, with its session count. */
  function After(snapshots: seq<Seen>, c: Calendar, decidedAt: int, sessions: int): Option<(Seen, int)>
    requires IsCalendar(c)
  {
    var o := Load(snapshots, c);
    LoadAscends(snapshots, c);
    var base := ClosesThrough(c, decidedAt);
    var index := BisectLeft(o.closes, base + sessions);
    if index >= |o.rows| then None else Some((o.rows[index], o.closes[index] - base))
  }

  /** One row's count, and which side of the search it falls on. */
  lemma RowQualifies(c: Calendar, decidedAt: int, sessions: int, s: Seen)
    requires IsCalendar(c) && sessions >= 1
    ensures var past := ClosesThrough(c, s.time) - ClosesThrough(c, decidedAt);
      && (Qualifies(c, decidedAt, sessions, s) <==> past >= sessions)
      && (past >= sessions ==> |ClosedIn(c, decidedAt, s.time)| == past)
  {
    CompletedBetweenCounts(c, decidedAt, s.time);
  }

  function Index(snapshots: seq<Seen>, c: Calendar, decidedAt: int, sessions: int): (index: nat)
    requires IsCalendar(c)
    ensures index <= |ByTime(snapshots)|
  {
    LoadAscends(snapshots, c);
    BisectLeft(Load(snapshots, c).closes, ClosesThrough(c, decidedAt) + sessions)
  }

  lemma IndexSplits(snapshots: seq<Seen>, c: Calendar, decidedAt: int, sessions: int, i: nat)
    requires IsCalendar(c) && sessions >= 1 && i < |ByTime(snapshots)|
    ensures Qualifies(c, decidedAt, sessions, ByTime(snapshots)[i]) <==> i >= Index(snapshots, c, decidedAt, sessions)
    ensures i >= Index(snapshots, c, decidedAt, sessions) ==>
      |ClosedIn(c, decidedAt, ByTime(snapshots)[i].time)|
      == Load(snapshots, c).closes[i] - ClosesThrough(c, decidedAt)
  {
    LoadAscends(snapshots, c);
    RowQualifies(c, decidedAt, sessions, ByTime(snapshots)[i]);
    var closes := Load(snapshots, c).closes;
    hide Qualifies, ClosedIn, ByTime, ClosesThrough;
    assert i < Index(snapshots, c, decidedAt, sessions) <==>
           Passed(closes[i], ClosesThrough(c, decidedAt) + sessions, false);
  }

  /** The binary search picks what a linear scan over closes and rows would pick. */
  lemma AfterIsEarliest(snapshots: seq<Seen>, c: Calendar, decidedAt: int, sessions: int)
    requires IsCalendar(c) && sessions >= 1
    ensures After(snapshots, c, decidedAt, sessions) ==
      var e := Earliest(snapshots, c, decidedAt, sessions);
      if e == None then None else Some((e.value, |ClosedIn(c, decidedAt, e.value.time)|))
  {
    var rows := ByTime(snapshots);
    var index := Index(snapshots, c, decidedAt, sessions);
    hide Qualifies, ClosesThrough, ClosedIn, ByTime, Earliest, First;
    forall i | 0 <= i < |rows| ensures Qualifies(c, decidedAt, sessions, rows[i]) <==> i >= index {
      IndexSplits(snapshots, c, decidedAt, sessions, i);
    }
    FirstAt(rows, c, decidedAt, sessions, index);
    FirstIsEarliest(snapshots, c, decidedAt, sessions);
    if index < |rows| { IndexSplits(snapshots, c, decidedAt, sessions, index); }
  }

  lemma PassStarts(db: Db, c: Calendar, now: int)
    ensures PassedTo(db, db, c, now, 0)
  {
  }

  lemma Settled(db: Db, c: Calendar, now: int, j: Job)
    requires j.state != Pending
    ensures !Resolves(db, c, now, j)
  {
  }

  /** A job the pass leaves alone. */
  lemma PassLeaves(db: Db, t: Db, c: Calendar, now: int, n: nat)
    requires n < |db.jobs| && PassedTo(db, t, c, now, n) && !Resolves(db, c, now, db.jobs[n])
    ensures PassedTo(db, t, c, now, n + 1)
  {
    hide OutcomeFor, ClosedIn;
    forall k | k in t.outcomes && k !in db.outcomes ensures Resolved(db, c, now, k, n + 1) {
      assert Resolved(db, c, now, k, n);
    }
  }

  /** A job the pass completes: its outcome is new, because no other job carries its key. */
  lemma PassCompletes(db: Db, t: Db, c: Calendar, now: int, n: nat, outcome: Outcome)
    requires n < |db.jobs| && Valid(db) && PassedTo(db, t, c, now, n) && Resolves(db, c, now, db.jobs[n])
    requires OutcomeFor(db, c, KeyOf(db.jobs[n])) == Some(outcome)
    ensures KeyOf(db.jobs[n]) !in t.outcomes
    ensures PassedTo(db, t.(jobs := t.jobs[n := AfterPass(db, c, now, db.jobs[n])],
                            outcomes := t.outcomes[KeyOf(db.jobs[n]) := outcome]), c, now, n + 1)
  {
    hide OutcomeFor, ClosedIn;
    var key := KeyOf(db.jobs[n]);
    assert key !in db.outcomes;
    var after := t.(jobs := t.jobs[n := AfterPass(db, c, now, db.jobs[n])], outcomes := t.outcomes[key := outcome]);
    forall k | k in after.outcomes && k !in db.outcomes ensures Resolved(db, c, now, k, n + 1) {
      if k == key {
        assert KeyOf(db.jobs[n]) == k && Resolves(db, c, now, db.jobs[n]);
      } else {
        assert Resolved(db, c, now, k, n);
      }
    }
  }

  // ----------------------------------------------------------------------- the store

  function PendingIn(jobs: seq<Job>): nat
  {
    if jobs == [] then 0
    else PendingIn(jobs[..|jobs| - 1]) + (if jobs[|jobs| - 1].state == Pending then 1 else 0)
  }

  class ReviewStore {
    var decisions: map<nat, Decision>
    var snapshots: seq<Seen>
    var jobs: seq<Job>
    var outcomes: map<Key, Outcome>

    function Value(): Db
      reads this
    {
      Db(decisions, snapshots, jobs, outcomes)
    }

    constructor ()
      ensures Value() == Db(map[], [], [], map[])
    {
      decisions, snapshots, jobs, outcomes := map[], [], [], map[];
    }

    /** One job per horizon the decision does not have one for yet. */
    method EnsureJobs(d: Decision)
      requires Valid(Value()) && d.id in decisions && decisions[d.id] == d
      modifies `jobs
      ensures Value() == Ensured(old(Value()), d)
    {
      ghost var before := jobs;
      for h := 0 to |HORIZONS|
        invariant jobs == before + Created(before, d, h)
      {
        var horizon := HORIZONS[h];
        assert Has(jobs, d.id, horizon) <==> Has(before, d.id, horizon) by {
          HasCreated(before, d, h);
        }
        if !Has(jobs, d.id, horizon) {
          jobs := jobs + [Job(d.id, horizon, d.decidedAt, d.policy, Pending, None)];
        }
      }
    }

    /** Resolve every pending job whose horizon has produced a completed close. */
    method Review(c: Calendar, now: int) returns (completed: nat, stillPending: nat)
      requires IsCalendar(c) && Valid(Value())
      modifies `jobs, `outcomes
      ensures IsReviewed(old(Value()), Value(), c, now)
      ensures stillPending == PendingIn(jobs) && completed + stillPending == old(PendingIn(jobs))
    {
      hide PassedTo, Valid, IsCalendar;
      completed, stillPending := 0, 0;
      ghost var db := Value();
      PassStarts(db, c, now);
      for n := 0 to |jobs|
        invariant |jobs| == |db.jobs|
        invariant PassedTo(db, Value(), c, now, n)
        invariant stillPending == PendingIn(jobs[..n]) && completed + stillPending == PendingIn(db.jobs[..n])
      {
        ghost var was := jobs[..n];
        var before := jobs[n].state;
        ReviewJob(c, now, n, db);
        if before == Pending {
          if jobs[n].state == Pending { stillPending := stillPending + 1; } else { completed := completed + 1; }
        }
        assert jobs[..n + 1][..n] == jobs[..n] == was && db.jobs[..n + 1][..n] == db.jobs[..n];
      }
      assert jobs[..|jobs|] == jobs && db.jobs[..|jobs|] == db.jobs;
    }

    /** One job of the pass: left alone unless it is pending and can be answered. */
    method ReviewJob(c: Calendar, now: int, n: nat, ghost db: Db)
      requires IsCalendar(c) && Valid(db) && n < |db.jobs|
      requires PassedTo(db, Value(), c, now, n)
      modifies `jobs, `outcomes
      ensures PassedTo(db, Value(), c, now, n + 1)
      ensures |jobs| == |db.jobs| && jobs[..n] == old(jobs[..n])
      ensures old(jobs[n]) == db.jobs[n] && (db.jobs[n].state != Pending ==> jobs[n] == db.jobs[n])
    {
      var job := jobs[n];
      assert decisions == db.decisions && snapshots == db.snapshots && job == db.jobs[n];
      hide PassedTo, Resolves, OutcomeFor;
      if job.state != Pending {
        Settled(db, c, now, job);
        PassLeaves(db, Value(), c, now, n);
        return;
      }
      var found := Resolve(c, now, job, db);
      if found == None {
        PassLeaves(db, Value(), c, now, n);
        return;
      }
      var key := (job.decision, job.horizon);
      PassCompletes(db, Value(), c, now, n, found.value);
      if key !in outcomes { outcomes := outcomes[key := found.value]; }
      jobs := jobs[n := job.(state := Complete, resolvedAt := Some(now))];
    }

    /** What a pass makes of one pending job: its outcome, or nothing while it must wait. */
    method Resolve(c: Calendar, now: int, job: Job, ghost db: Db) returns (found: Option<Outcome>)
      requires IsCalendar(c) && Valid(db) && job in db.jobs && job.state == Pending
      requires decisions == db.decisions && snapshots == db.snapshots
      ensures found.Some? <==> Resolves(db, c, now, job)
      ensures found.Some? ==> found == OutcomeFor(db, c, KeyOf(job))
    {
      CompletedBetweenCounts(c, job.decidedAt, now);
      assert now <= job.decidedAt ==> ClosedIn(c, job.decidedAt, now) == {};
      if SessionsElapsed(c, job.decidedAt, now) < Sessions(job.horizon) { return None; }
      var after := After(snapshots, c, job.decidedAt, Sessions(job.horizon));
      AfterIsEarliest(snapshots, c, job.decidedAt, Sessions(job.horizon));
      if after == None { return None; }
      var d := decisions[job.decision];
      var first := ById(snapshots, d.snapshot);
      if first == None { return None; }
      found := Some(Record(d, job.policy, first.value, after.value.0, after.value.1));
    }
  }

  // ---------------------------------------------------------------------- ensure_jobs

  predicate Has(jobs: seq<Job>, id: nat, h: Horizon)
  {
    exists i :: 0 <= i < |jobs| && jobs[i].decision == id && jobs[i].horizon == h
  }

  /** The jobs the first `n` horizons are still missing. */
  function Created(jobs: seq<Job>, d: Decision, n: nat): seq<Job>
    requires n <= |HORIZONS|
  {
    if n == 0 then []
    else if Has(jobs, d.id, HORIZONS[n - 1]) then Created(jobs, d, n - 1)
    else Created(jobs, d, n - 1) + [Job(d.id, HORIZONS[n - 1], d.decidedAt, d.policy, Pending, None)]
  }

  function Ensured(db: Db, d: Decision): Db
  {
    db.(jobs := db.jobs + Created(db.jobs, d, |HORIZONS|))
  }

  /** Jobs that the first `n` horizons were missing: pending, one each, and nothing is missing after. */
  ghost predicate AreMissing(jobs: seq<Job>, d: Decision, n: nat, added: seq<Job>)
    requires n <= |HORIZONS|
  {
    && (forall i :: 0 <= i < |added| ==>
          && added[i].decision == d.id && added[i].decidedAt == d.decidedAt && added[i].policy == d.policy
          && added[i].state == Pending && !Has(jobs, d.id, added[i].horizon) && added[i].horizon in HORIZONS[..n])
    && (forall i, j :: 0 <= i < j < |added| ==> added[i].horizon != added[j].horizon)
    && (forall h :: h in HORIZONS[..n] ==> Has(jobs + added, d.id, h))
  }

  /** The created jobs are exactly the missing horizons'. */
  lemma {:induction false} CreatedJobs(jobs: seq<Job>, d: Decision, n: nat)
    requires n <= |HORIZONS|
    ensures AreMissing(jobs, d, n, Created(jobs, d, n))
  {
    if n > 0 {
      CreatedJobs(jobs, d, n - 1);
      OneMore(jobs, d, n, Created(jobs, d, n - 1));
    }
  }

  /** The next horizon: nothing to add, or one job for it. */
  lemma OneMore(jobs: seq<Job>, d: Decision, n: nat, was: seq<Job>)
    requires 0 < n <= |HORIZONS| && AreMissing(jobs, d, n - 1, was)
    ensures var h := HORIZONS[n - 1];
      AreMissing(jobs, d, n, if Has(jobs, d.id, h) then was
                             else was + [Job(d.id, h, d.decidedAt, d.policy, Pending, None)])
  {
    var last := HORIZONS[n - 1];
    var before, upto := HORIZONS[..n - 1], HORIZONS[..n];
    assert upto == before + [last] && last !in before;
    assert forall h :: h in upto <==> h in before || h == last;
    if Has(jobs, d.id, last) {
      HasMore(jobs, was, d.id, last);
    } else {
      OneAdded(jobs, d, n, was, Job(d.id, last, d.decidedAt, d.policy, Pending, None), before, upto);
    }
  }

  lemma OneAdded(jobs: seq<Job>, d: Decision, n: nat, was: seq<Job>, job: Job, before: seq<Horizon>, upto: seq<Horizon>)
    requires 0 < n <= |HORIZONS| && AreMissing(jobs, d, n - 1, was)
    requires before == HORIZONS[..n - 1] && upto == HORIZONS[..n] && job.horizon !in before
    requires forall h :: h in upto <==> h in before || h == job.horizon
    requires job.decision == d.id && job.decidedAt == d.decidedAt && job.policy == d.policy && job.state == Pending
    requires !Has(jobs, d.id, job.horizon)
    ensures AreMissing(jobs, d, n, was + [job])
  {
    var added := was + [job];
    assert jobs + added == jobs + was + [job];
    HasLast(jobs + was, job);
    hide Has;
    forall h | h in upto ensures Has(jobs + added, d.id, h) {
      if h in before { HasMore(jobs + was, [job], d.id, h); }
    }
  }

  lemma HasLast(jobs: seq<Job>, job: Job)
    ensures Has(jobs + [job], job.decision, job.horizon)
  {
    assert (jobs + [job])[|jobs|] == job;
  }

  lemma HasMore(jobs: seq<Job>, more: seq<Job>, id: nat, h: Horizon)
    requires Has(jobs, id, h)
    ensures Has(jobs + more, id, h)
  {
    var i :| 0 <= i < |jobs| && jobs[i].decision == id && jobs[i].horizon == h;
    assert (jobs + more)[i] == jobs[i];
  }

  lemma HasCreated(jobs: seq<Job>, d: Decision, n: nat)
    requires n < |HORIZONS|
    ensures Has(jobs + Created(jobs, d, n), d.id, HORIZONS[n]) <==> Has(jobs, d.id, HORIZONS[n])
  {
    CreatedJobs(jobs, d, n);
    assert HORIZONS[n] !in HORIZONS[..n];
    var all := jobs + Created(jobs, d, n);
    if Has(jobs, d.id, HORIZONS[n]) {
      var i :| 0 <= i < |jobs| && jobs[i].decision == d.id && jobs[i].horizon == HORIZONS[n];
      assert all[i] == jobs[i];
    }
    if Has(all, d.id, HORIZONS[n]) {
      var i :| 0 <= i < |all| && all[i].decision == d.id && all[i].horizon == HORIZONS[n];
      if i < |jobs| { assert jobs[i] == all[i]; }
    }
  }

  /** Asked again, `ensure_jobs` adds nothing. */
  lemma EnsureIsIdempotent(db: Db, d: Decision)
    ensures Ensured(Ensured(db, d), d) == Ensured(db, d)
  {
    CreatedJobs(db.jobs, d, |HORIZONS|);
    assert HORIZONS[..|HORIZONS|] == HORIZONS;
    var all := Ensured(db, d).jobs;
    assert HORIZONS[0] in HORIZONS && HORIZONS[1] in HORIZONS;
    assert Has(all, d.id, HORIZONS[0]) && Has(all, d.id, HORIZONS[1]);
    assert Created(all, d, 0) == [] && Created(all, d, 1) == [] && Created(all, d, 2) == [];
  }

  // -------------------------------------------------------------------------- runs

  datatype Step =
    | Decide(d: Decision)   // a decision is recorded, from a stored observation
    | Observe(s: Seen)      // a later observation is stored
    | Ensure(id: nat)       // ensure_jobs
    | ReviewAt(now: int)    // review

  ghost predicate Next(c: Calendar, db: Db, step: Step, t: Db)
  {
    match step
    case Decide(d) => d.id !in db.decisions && t == db.(decisions := db.decisions[d.id := d])
    case Observe(s) =>
      && (forall y :: y in db.snapshots ==> y.time <= s.time && y.id != s.id)
      && t == db.(snapshots := db.snapshots + [s])
    case Ensure(id) => id in db.decisions && t == Ensured(db, db.decisions[id])
    case ReviewAt(now) => IsReviewed(db, t, c, now)
  }

  /** `t` keeps every job and every outcome of `db`, an outcome bit for bit. */
  ghost predicate Extends(db: Db, t: Db)
  {
    && |db.jobs| <= |t.jobs|
    && (forall i :: 0 <= i < |db.jobs| ==>
          && KeyOf(t.jobs[i]) == KeyOf(db.jobs[i])
          && (db.jobs[i].state == Complete ==> t.jobs[i] == db.jobs[i]))
    && (forall k :: k in db.outcomes ==> k in t.outcomes && t.outcomes[k] == db.outcomes[k])
  }

  /** A later observation never displaces the earliest one; an earlier one that qualifies always does. */
  lemma LaterObservation(snapshots: seq<Seen>, s: Seen, c: Calendar, decidedAt: int, sessions: int)
    ensures var e := Earliest(snapshots, c, decidedAt, sessions);
      && (Qualifies(c, decidedAt, sessions, s) && (e == None || s.time < e.value.time)
          <==> Earliest(snapshots + [s], c, decidedAt, sessions) != e)
      && (Earliest(snapshots + [s], c, decidedAt, sessions) != e ==>
            Earliest(snapshots + [s], c, decidedAt, sessions) == Some(s))
  {
    hide Qualifies;
    assert (snapshots + [s])[..|snapshots|] == snapshots;
    EarliestIsStored(snapshots, c, decidedAt, sessions);
  }

  lemma {:induction false} EarliestIsStored(snapshots: seq<Seen>, c: Calendar, decidedAt: int, sessions: int)
    ensures var e := Earliest(snapshots, c, decidedAt, sessions);
      e.Some? ==> e.value in snapshots && Qualifies(c, decidedAt, sessions, e.value)
  {
    hide Qualifies;
    if snapshots != [] {
      assert snapshots == snapshots[..|snapshots| - 1] + [snapshots[|snapshots| - 1]];
      EarliestIsStored(snapshots[..|snapshots| - 1], c, decidedAt, sessions);
    }
  }

  lemma ObserveKeepsOutcome(db: Db, c: Calendar, s: Seen, k: Key)
    requires forall y :: y in db.snapshots ==> y.time <= s.time && y.id != s.id
    requires OutcomeFor(db, c, k).Some?
    ensures OutcomeFor(db.(snapshots := db.snapshots + [s]), c, k) == OutcomeFor(db, c, k)
  {
    var d := db.decisions[k.0];
    LaterObservation(db.snapshots, s, c, d.decidedAt, Sessions(k.1));
    EarliestIsStored(db.snapshots, c, d.decidedAt, Sessions(k.1));
    assert (db.snapshots + [s])[..|db.snapshots|] == db.snapshots;
  }

  lemma OutcomeForFrame(db: Db, t: Db, c: Calendar, k: Key)
    requires t.decisions == db.decisions && t.snapshots == db.snapshots
    ensures OutcomeFor(t, c, k) == OutcomeFor(db, c, k)
  {
  }

  /** Fresh pending jobs, one per key, change no outcome and break nothing. */
  lemma AddJobs(db: Db, added: seq<Job>)
    requires Valid(db)
    requires forall i :: 0 <= i < |added| ==>
      var j := added[i];
      && j.decision in db.decisions && j.state == Pending
      && j.decidedAt == db.decisions[j.decision].decidedAt && j.policy == db.decisions[j.decision].policy
    requires forall i, j :: 0 <= i < j < |added| ==> KeyOf(added[i]) != KeyOf(added[j])
    requires forall i, j :: 0 <= i < |db.jobs| && 0 <= j < |added| ==> KeyOf(db.jobs[i]) != KeyOf(added[j])
    ensures Valid(db.(jobs := db.jobs + added)) && Extends(db, db.(jobs := db.jobs + added))
  {
    var t := db.(jobs := db.jobs + added);
    forall k | k in db.outcomes ensures exists i :: 0 <= i < |t.jobs| && KeyOf(t.jobs[i]) == k {
      var i :| 0 <= i < |db.jobs| && KeyOf(db.jobs[i]) == k;
      assert t.jobs[i] == db.jobs[i];
    }
    forall j | 0 <= j < |added| ensures KeyOf(added[j]) !in db.outcomes {
    }
  }

  lemma EnsureKeepsTo(db: Db, d: Decision, n: nat)
    requires Valid(db) && d.id in db.decisions && db.decisions[d.id] == d && n <= |HORIZONS|
    ensures var t := db.(jobs := db.jobs + Created(db.jobs, d, n)); Valid(t) && Extends(db, t)
  {
    CreatedJobs(db.jobs, d, n);
    var added := Created(db.jobs, d, n);
    forall i, j | 0 <= i < |db.jobs| && 0 <= j < |added| ensures KeyOf(db.jobs[i]) != KeyOf(added[j]) {
      assert !Has(db.jobs, d.id, added[j].horizon);
    }
    AddJobs(db, added);
  }

  lemma EnsureKeeps(db: Db, d: Decision)
    requires Valid(db) && d.id in db.decisions && db.decisions[d.id] == d
    ensures Valid(Ensured(db, d)) && Extends(db, Ensured(db, d))
  {
    EnsureKeepsTo(db, d, |HORIZONS|);
  }

  lemma ReviewKeepsJobs(db: Db, t: Db, c: Calendar, now: int)
    requires Valid(db) && IsReviewed(db, t, c, now)
    ensures |t.jobs| == |db.jobs|
    ensures forall i :: 0 <= i < |t.jobs| ==>
      && KeyOf(t.jobs[i]) == KeyOf(db.jobs[i])
      && (t.jobs[i].state == Complete <==> KeyOf(db.jobs[i]) in t.outcomes)
      && t.jobs[i].decidedAt == db.jobs[i].decidedAt && t.jobs[i].policy == db.jobs[i].policy
      && (db.jobs[i].state == Complete ==> t.jobs[i] == db.jobs[i])
  {
    forall i | 0 <= i < |db.jobs| ensures
      && KeyOf(t.jobs[i]) == KeyOf(db.jobs[i])
      && (t.jobs[i].state == Complete <==> KeyOf(db.jobs[i]) in t.outcomes)
      && t.jobs[i].decidedAt == db.jobs[i].decidedAt && t.jobs[i].policy == db.jobs[i].policy
      && (db.jobs[i].state == Complete ==> t.jobs[i] == db.jobs[i])
    {
      CompletedWithOutcome(db, t, c, now, i);
    }
  }

  lemma ReviewKeepsValid(db: Db, t: Db, c: Calendar, now: int)
    requires Valid(db) && IsReviewed(db, t, c, now)
    ensures Valid(t) && Extends(db, t)
  {
    hide AfterPass, Resolves, OutcomeFor;
    ReviewKeepsJobs(db, t, c, now);
    forall k | k in t.outcomes ensures exists i :: 0 <= i < |t.jobs| && KeyOf(t.jobs[i]) == k {
      if k in db.outcomes {
        var i :| 0 <= i < |db.jobs| && KeyOf(db.jobs[i]) == k;
        assert KeyOf(t.jobs[i]) == k;
      } else {
        var i :| 0 <= i < |db.jobs| && KeyOf(db.jobs[i]) == k && Resolves(db, c, now, db.jobs[i]);
        assert KeyOf(t.jobs[i]) == k;
      }
    }
  }

  lemma ReviewKeepsFaithful(db: Db, t: Db, c: Calendar, now: int)
    requires Faithful(db, c) && IsReviewed(db, t, c, now)
    ensures Faithful(t, c)
  {
    hide AfterPass, Resolves, OutcomeFor;
    forall k | k in t.outcomes ensures OutcomeFor(t, c, k) == Some(t.outcomes[k]) {
      OutcomeForFrame(db, t, c, k);
      if k !in db.outcomes {
        var i :| 0 <= i < |db.jobs| && KeyOf(db.jobs[i]) == k && Resolves(db, c, now, db.jobs[i]);
      }
    }
  }

  /** A pass completes a job exactly when it writes its outcome. */
  lemma CompletedWithOutcome(db: Db, t: Db, c: Calendar, now: int, i: nat)
    requires Valid(db) && IsReviewed(db, t, c, now) && i < |db.jobs|
    ensures KeyOf(t.jobs[i]) == KeyOf(db.jobs[i])
    ensures t.jobs[i].decidedAt == db.jobs[i].decidedAt && t.jobs[i].policy == db.jobs[i].policy
    ensures t.jobs[i].state == Complete <==> KeyOf(db.jobs[i]) in t.outcomes
    ensures db.jobs[i].state == Complete ==> t.jobs[i] == db.jobs[i]
  {
    hide OutcomeFor, ClosedIn;
    assert t.jobs[i] == AfterPass(db, c, now, db.jobs[i]);
    var k := KeyOf(db.jobs[i]);
    if k in t.outcomes && k !in db.outcomes {
      var n :| 0 <= n < |db.jobs| && KeyOf(db.jobs[n]) == k && Resolves(db, c, now, db.jobs[n]);
      assert n == i;
    }
  }

  lemma StepKeeps(db: Db, t: Db, c: Calendar, step: Step)
    requires Valid(db) && Faithful(db, c) && Next(c, db, step, t)
    ensures Valid(t) && Faithful(t, c) && Extends(db, t)
  {
    hide OutcomeFor, IsReviewed, Ensured;
    match step
    case Decide(d) =>
      forall k | k in t.outcomes ensures OutcomeFor(t, c, k) == Some(t.outcomes[k]) {
        DecideKeepsOutcome(db, c, d, k);
      }
    case Observe(s) =>
      forall k | k in t.outcomes ensures OutcomeFor(t, c, k) == Some(t.outcomes[k]) {
        ObserveKeepsOutcome(db, c, s, k);
      }
    case Ensure(id) =>
      EnsureKeeps(db, db.decisions[id]);
      EnsuredFrame(db, db.decisions[id]);
      forall k | k in t.outcomes ensures OutcomeFor(t, c, k) == Some(t.outcomes[k]) {
        OutcomeForFrame(db, t, c, k);
      }
    case ReviewAt(now) =>
      ReviewKeepsValid(db, t, c, now);
      ReviewKeepsFaithful(db, t, c, now);
  }

  lemma EnsuredFrame(db: Db, d: Decision)
    ensures var t := Ensured(db, d);
      t.decisions == db.decisions && t.snapshots == db.snapshots && t.outcomes == db.outcomes
  {
  }

  lemma DecideKeepsOutcome(db: Db, c: Calendar, d: Decision, k: Key)
    requires d.id !in db.decisions && k.0 in db.decisions
    ensures OutcomeFor(db.(decisions := db.decisions[d.id := d]), c, k) == OutcomeFor(db, c, k)
  {
  }

  /** A run: the states it passes through, one more than its steps. */
  ghost predicate IsRun(c: Calendar, states: seq<Db>, steps: seq<Step>)
  {
    && |states| == |steps| + 1
    && forall i :: 0 <= i < |steps| ==> Next(c, states[i], steps[i], states[i + 1])
  }

  const EMPTY := Db(map[], [], [], map[])

  /**
    Whatever the order of decisions, observations, job creation and review passes: one
    job and one outcome at most per decision and horizon, the outcome present exactly
    when the job is complete, and equal to what a linear scan would pick.
  */
  lemma {:induction false} RunKeeps(c: Calendar, states: seq<Db>, steps: seq<Step>, i: nat)
    requires IsRun(c, states, steps) && states[0] == EMPTY && i < |states|
    ensures Valid(states[i]) && Faithful(states[i], c)
  {
    if i > 0 {
      RunKeeps(c, states, steps, i - 1);
      StepKeeps(states[i - 1], states[i], c, steps[i - 1]);
    }
  }

  /** An outcome once written is in every later state, unchanged, and its job stays complete. */
  lemma {:induction false} OutcomesNeverChange(c: Calendar, states: seq<Db>, steps: seq<Step>, i: nat, j: nat)
    requires IsRun(c, states, steps) && states[0] == EMPTY && i <= j < |states|
    ensures Extends(states[i], states[j])
  {
    if i < j {
      OutcomesNeverChange(c, states, steps, i, j - 1);
      RunKeeps(c, states, steps, j - 1);
      StepKeeps(states[j - 1], states[j], c, steps[j - 1]);
    }
  }

  /** Observations are stored in the order of their times. */
  lemma {:induction false} RunInOrder(c: Calendar, states: seq<Db>, steps: seq<Step>, i: nat)
    requires IsRun(c, states, steps) && states[0] == EMPTY && i < |states|
    ensures InOrder(states[i].snapshots)
  {
    if i > 0 {
      RunInOrder(c, states, steps, i - 1);
      assert Next(c, states[i - 1], steps[i - 1], states[i]);
    }
  }

  /** Whatever is observed later, an outcome the records give stays the one they give. */
  lemma {:induction false} LaterRecordsKeepOutcome(db: Db, t: Db, c: Calendar, k: Key)
    requires Valid(t) && InOrder(t.snapshots) && db.snapshots <= t.snapshots
    requires k.0 in db.decisions && k.0 in t.decisions && db.decisions[k.0] == t.decisions[k.0]
    requires OutcomeFor(db, c, k).Some?
    ensures OutcomeFor(t, c, k) == OutcomeFor(db, c, k)
    decreases |t.snapshots|
  {
    if db.snapshots == t.snapshots {
    } else {
      var n := |t.snapshots| - 1;
      var before := t.(snapshots := t.snapshots[..n]);
      hide OutcomeFor;
      LaterRecordsKeepOutcome(db, before, c, k);
      assert t.snapshots == before.snapshots + [t.snapshots[n]];
      ObserveKeepsOutcome(before, c, t.snapshots[n], k);
      assert t == before.(snapshots := before.snapshots + [t.snapshots[n]]);
    }
  }

  /**
    Two runs agree on every outcome both have, whenever their reviews ran and however much
    longer one of them went on observing: the records of the one begin with those of the other.
  */
  lemma ScheduleDoesNotMatter(c: Calendar, a: seq<Db>, p: seq<Step>, b: seq<Db>, q: seq<Step>, k: Key)
    requires IsRun(c, a, p) && a[0] == EMPTY && IsRun(c, b, q) && b[0] == EMPTY
    requires a[|p|].snapshots <= b[|q|].snapshots || b[|q|].snapshots <= a[|p|].snapshots
    requires k in a[|p|].outcomes && k in b[|q|].outcomes
    requires k.0 in a[|p|].decisions && k.0 in b[|q|].decisions && a[|p|].decisions[k.0] == b[|q|].decisions[k.0]
    ensures a[|p|].outcomes[k] == b[|q|].outcomes[k]
  {
    hide OutcomeFor, Next;
    RunKeeps(c, a, p, |p|);
    RunKeeps(c, b, q, |q|);
    RunInOrder(c, a, p, |p|);
    RunInOrder(c, b, q, |q|);
    if a[|p|].snapshots <= b[|q|].snapshots {
      LaterRecordsKeepOutcome(a[|p|], b[|q|], c, k);
    } else {
      LaterRecordsKeepOutcome(b[|q|], a[|p|], c, k);
    }
  }

  /** A pass late enough completes every job the records can answer, and no other. */
  lemma ReviewCatchesUp(c: Calendar, db: Db, t: Db, now: int, i: nat)
    requires Valid(db) && IsReviewed(db, t, c, now) && i < |db.jobs|
    ensures t.jobs[i].state == Complete <==>
      || db.jobs[i].state == Complete
      || (|ClosedIn(c, db.jobs[i].decidedAt, now)| >= Sessions(db.jobs[i].horizon)
          && OutcomeFor(db, c, KeyOf(db.jobs[i])).Some?)
  {
    hide OutcomeFor, ClosedIn;
    assert t.jobs[i] == AfterPass(db, c, now, db.jobs[i]);
  }

  // ------------------------------------------------------------ what an outcome reads as

  /** The closes of the calendar after the one moment and up to the other. */
  ghost function ClosesAfter(c: Calendar, start: int, end: int): set<int>
  {
    set i | 0 <= i < |c| && start < c[i].closeAt <= end
  }

  /** An observation by which one session, or for the longer horizon three, has closed since the decision. */
  ghost predicate FarEnough(c: Calendar, d: Decision, h: Horizon, s: Seen)
  {
    |ClosesAfter(c, d.decidedAt, s.time)| >= if h == T1 then 1 else 3
  }

  /** The observation an outcome is taken from: far enough, and none far enough is earlier. */
  ghost predicate FirstFarEnough(db: Db, c: Calendar, d: Decision, h: Horizon, s: Seen)
  {
    && s in db.snapshots && FarEnough(c, d, h, s)
    && forall t :: t in db.snapshots && FarEnough(c, d, h, t) ==> s.time <= t.time
  }

  lemma {:induction false} EarliestIsFirst(snapshots: seq<Seen>, c: Calendar, decidedAt: int, sessions: int)
    ensures var e := Earliest(snapshots, c, decidedAt, sessions);
      && (e == None <==> forall t :: t in snapshots ==> !Qualifies(c, decidedAt, sessions, t))
      && (e.Some? ==> forall t :: t in snapshots && Qualifies(c, decidedAt, sessions, t) ==> e.value.time <= t.time)
  {
    hide Qualifies;
    if snapshots != [] {
      assert snapshots == snapshots[..|snapshots| - 1] + [snapshots[|snapshots| - 1]];
      EarliestIsFirst(snapshots[..|snapshots| - 1], c, decidedAt, sessions);
    }
  }

  lemma QualifiesReads(c: Calendar, d: Decision, h: Horizon, s: Seen)
    ensures Qualifies(c, d.decidedAt, Sessions(h), s) <==> FarEnough(c, d, h, s)
  {
    assert ClosedIn(c, d.decidedAt, s.time) == ClosesAfter(c, d.decidedAt, s.time);
  }

  /**
    An outcome is there exactly when the decision, its own observation and one far enough are;
    it compares the earliest far enough with the decision's own, and agrees with the direction
    when the price moved that way.
  */
  lemma OutcomeReads(db: Db, c: Calendar, id: nat, h: Horizon) returns (first: Option<Seen>, s: Option<Seen>)
    requires id in db.decisions
    ensures OutcomeFor(db, c, (id, h)).Some? <==> first.Some? && s.Some?
    ensures first.None? <==> forall t :: t in db.snapshots ==> t.id != db.decisions[id].snapshot
    ensures s.None? <==> forall t :: t in db.snapshots ==> !FarEnough(c, db.decisions[id], h, t)
    ensures first.Some? ==> first.value in db.snapshots && first.value.id == db.decisions[id].snapshot
    ensures s.Some? ==> FirstFarEnough(db, c, db.decisions[id], h, s.value)
    ensures first.Some? && s.Some? ==>
      var o, d := OutcomeFor(db, c, (id, h)).value, db.decisions[id];
      && o.observed == s.value.name && o.observedAt == s.value.time
      && o.sessionsElapsed == |ClosesAfter(c, d.decidedAt, s.value.time)|
      && o.atDecision == first.value.price && o.atHorizon == s.value.price
      && o.change == s.value.price - first.value.price
      && (o.agreed == None <==> s.value.price == first.value.price || d.direction == Neutral)
      && (o.agreed == Some(true) <==>
            || (d.direction == Bullish && s.value.price > first.value.price)
            || (d.direction == Bearish && s.value.price < first.value.price))
      && o.traded == d.traded && o.policy == d.policy
  {
    var d := db.decisions[id];
    first := ById(db.snapshots, d.snapshot);
    s := Earliest(db.snapshots, c, d.decidedAt, Sessions(h));
    EarliestIsFirst(db.snapshots, c, d.decidedAt, Sessions(h));
    EarliestIsStored(db.snapshots, c, d.decidedAt, Sessions(h));
    forall t ensures Qualifies(c, d.decidedAt, Sessions(h), t) <==> FarEnough(c, d, h, t) {
      QualifiesReads(c, d, h, t);
    }
    if s.Some? { assert ClosedIn(c, d.decidedAt, s.value.time) == ClosesAfter(c, d.decidedAt, s.value.time); }
    hide Qualifies, FarEnough, ClosedIn, ClosesAfter, Earliest, ById;
  }

  lemma BothHorizons()
    ensures T1 in HORIZONS[..|HORIZONS|] && T3 in HORIZONS[..|HORIZONS|]
  {
    assert HORIZONS[..|HORIZONS|] == HORIZONS && HORIZONS[0] == T1 && HORIZONS[1] == T3;
  }

  /** Asked for a decision's jobs, the store has one for each of the two horizons after, and keeps every job it had. */
  lemma EnsuredReads(db: Db, d: Decision)
    ensures var t := Ensured(db, d);
      && db.jobs <= t.jobs && Has(t.jobs, d.id, T1) && Has(t.jobs, d.id, T3)
      && (forall i :: |db.jobs| <= i < |t.jobs| ==>
            && t.jobs[i] == Job(d.id, t.jobs[i].horizon, d.decidedAt, d.policy, Pending, None)
            && !Has(db.jobs, d.id, t.jobs[i].horizon))
      && t == db.(jobs := t.jobs)
  {
    hide Has, Created;
    var added := Created(db.jobs, d, |HORIZONS|);
    CreatedJobs(db.jobs, d, |HORIZONS|);
    CreatedUnresolved(db.jobs, d, |HORIZONS|);
    BothHorizons();
    forall i | |db.jobs| <= i < |db.jobs + added|
      ensures (db.jobs + added)[i] == Job(d.id, (db.jobs + added)[i].horizon, d.decidedAt, d.policy, Pending, None)
      ensures !Has(db.jobs, d.id, (db.jobs + added)[i].horizon)
    {
      assert (db.jobs + added)[i] == added[i - |db.jobs|];
    }
  }

  lemma {:induction false} CreatedUnresolved(jobs: seq<Job>, d: Decision, n: nat)
    requires n <= |HORIZONS|
    ensures forall i :: 0 <= i < |Created(jobs, d, n)| ==> Created(jobs, d, n)[i].resolvedAt == None
  {
    if n > 0 { CreatedUnresolved(jobs, d, n - 1); }
  }

  /** A pass completes a pending job exactly when its sessions have closed by then and its outcome is there. */
  lemma ReviewReads(c: Calendar, db: Db, t: Db, now: int, i: nat)
    requires Valid(db) && IsReviewed(db, t, c, now) && i < |db.jobs| && db.jobs[i].state == Pending
    ensures var j := db.jobs[i];
      var due := |ClosesAfter(c, j.decidedAt, now)| >= if j.horizon == T1 then 1 else 3;
      var key := (j.decision, j.horizon);
      && (t.jobs[i].state == Complete <==> due && OutcomeFor(db, c, key).Some?)
      && (t.jobs[i].state == Complete ==>
            t.jobs[i].resolvedAt == Some(now) && key in t.outcomes && Some(t.outcomes[key]) == OutcomeFor(db, c, key))
      && (t.jobs[i].state == Pending ==> t.jobs[i] == j && key !in t.outcomes)
  {
    var j := db.jobs[i];
    assert ClosedIn(c, j.decidedAt, now) == ClosesAfter(c, j.decidedAt, now);
    CompletedWithOutcome(db, t, c, now, i);
    assert t.jobs[i] == AfterPass(db, c, now, j);
    hide OutcomeFor, ClosedIn, ClosesAfter;
  }
}
