/**
  The decision cycle of `agent.py`: reconcile, enforce deadlines, observe, manage every
  owned position, and only then consider one new entry. The broker, the provider, the
  decision workflow and what may raise are inputs.
*/
module Agent {
  import opened Wrappers
  import opened Arrange
  import opened Lifecycle
  import opened Reconciliation
  import opened Deadlines
  import opened Stuck
  import Exits

  datatype ExecutionState = Normal | NoNewRisk | FreezeAllWrites

  datatype Action =
    | ObserveFailed | MarketClosed | DeadlineAction | EntryInFlight | EntryHalted | OutsideEntryWindow
    | NoTrade | TradeCandidate | EntryRefused | EntryAmbiguous | EntrySubmitted
    | PositionReview | CloseWorking | PositionHeld | ExitSignalled | ExitBlocked | ExitRefused | CloseSubmitted
    | ManagementFailed | ResolvedMidCycle | PositionIncident | PositionsManaged

  /** What a management cycle did about one position; `valued` where a tick result came back. */
  datatype Managed = Managed(id: Id, action: Action, valued: bool)

  /** What managing one position can end as, when nothing raises. */
  const MANAGING: set<Action> :=
    {PositionReview, CloseWorking, PositionHeld, ExitSignalled, ExitBlocked, ExitRefused, CloseSubmitted}

  datatype Cycle = Cycle(seen: nat, valued: nat, results: seq<Managed>)

  /** What an agent was built with: a store, a reconciler, deadlines it may enforce, and write authority. */
  datatype Means = Means(hasStore: bool, reconciles: bool, enforces: bool, mayWrite: bool)

  // ------------------------------------------------------------------------- the gateway

  datatype Response = Acknowledged(status: OrderState, hasId: bool) | Located(status: OrderState, hasId: bool) | Lost

  /** Everything one submission meets at the gateway and behind it. */
  datatype Desk = Desk(paper: bool, approved: bool, strategies: nat, expired: bool, matches: bool, response: Response)

  datatype Submission = Submission(status: OrderState, hasId: bool, ambiguous: bool)

  /** `Guarded`: refused before anything was sent. `OutcomeUnknown`: sent, and nothing could be found. */
  datatype Refusal = Guarded | OutcomeUnknown

  predicate Passes(mayWrite: bool, state: ExecutionState, reducesRisk: bool, d: Desk)
  {
    && mayWrite && d.paper && state != FreezeAllWrites
    && (reducesRisk || (state == Normal && d.approved && d.strategies == 0))
    && !d.expired && d.matches
  }

  function Submit(mayWrite: bool, state: ExecutionState, reducesRisk: bool, d: Desk): Result<Submission, Refusal>
  {
    if !Passes(mayWrite, state, reducesRisk, d) then Failure(Guarded)
    else match d.response
      case Acknowledged(status, hasId) => Success(Submission(status, hasId, false))
      case Located(status, hasId) => Success(Submission(status, hasId, true))
      case Lost => Failure(OutcomeUnknown)
  }

  /**
    What the gateway lets through: never without write authority, off the paper endpoint, past
    its expiry or other than approved; a close in any state but a freeze; an opening order only
    in the normal state, with the operator's approval and no other strategy open. The answer is
    ambiguous where the order had to be looked up, and unknown where that found nothing.
  */
  lemma SubmitReads(mayWrite: bool, state: ExecutionState, reducesRisk: bool, d: Desk)
    ensures var r := Submit(mayWrite, state, reducesRisk, d);
      && (r == Failure(Guarded) <==>
            || !mayWrite || !d.paper || d.expired || !d.matches || state == FreezeAllWrites
            || (!reducesRisk && (state == NoNewRisk || !d.approved || d.strategies > 0)))
      && (r == Failure(OutcomeUnknown) <==> r != Failure(Guarded) && d.response == Lost)
      && (r.Success? ==> r.value == Submission(d.response.status, d.response.hasId, d.response.Located?))
  {
  }

  // --------------------------------------------------------------------------- the inputs

  /** Where managing one position raises, if it does. */
  datatype Stage = Nowhere | AtObservation | AtRecord | AtResponse

  datatype Snapshot = Snapshot(usable: bool, exits: Id -> Exits.Inputs)

  datatype World = World(
    now: int,
    looks: nat -> BrokerRead,                 // one per reconciliation of the call, in order
    cancel: OrderId -> CancelAnswer,
    observed: Option<Snapshot>, marketOpen: bool, windowOpen: bool,
    entry: Option<ClientId>,                  // the intent of an approved decision
    entryDesk: Desk, closeDesk: Id -> Desk,
    closeClient: (Id, nat, Exits.Trigger, real) -> ClientId,
    fault: Id -> Stage, rank: Id -> int)      // how the random position ids compare

  /** The exit policy's inputs, on the reconciled fill and never the estimate. */
  function ExitInputs(p: Position, snap: Snapshot, id: Id): Exits.Inputs
    requires p.debit.Some?
  {
    snap.exits(id).(entryDebit := p.debit.value, quantity := p.filled)
  }

  /** Where a position sits in the exit precedence; what cannot be answered sorts last. */
  function Urgency(l: Ledger, snap: Snapshot, id: Id): nat
  {
    if id !in l.positions || l.positions[id].debit.None? then |Exits.PRECEDENCE| + 1
    else
      var decision := Exits.EvaluateExit(ExitInputs(l.positions[id], snap, id));
      if decision.Failure? then |Exits.PRECEDENCE| + 1
      else if !decision.value.shouldClose then |Exits.PRECEDENCE|
      else Exits.Urgency(decision.value.trigger)
  }

  /** Most urgent first; the ids themselves break a tie. */
  function UrgencyKey(l: Ledger, snap: Snapshot, w: World): Id -> Key
  {
    (id: Id) => (Urgency(l, snap, id), w.rank(id))
  }

  /** The exit that fires for a position, if one does. */
  function FiringTrigger(l: Ledger, snap: Snapshot, id: Id): Option<Exits.Trigger>
  {
    if id !in l.positions || l.positions[id].debit.None? then None
    else
      var decision := Exits.EvaluateExit(ExitInputs(l.positions[id], snap, id));
      if decision.Success? && decision.value.shouldClose then Some(decision.value.trigger) else None
  }

  /**
    In urgency order, whatever stands before a position whose exit fires also fires, and on a
    rule that comes no later in the exit precedence.
  */
  lemma UrgentFirst(l: Ledger, snap: Snapshot, w: World, ids: seq<Id>, i: nat, j: nat, a: nat)
    requires Sorted(ids, UrgencyKey(l, snap, w)) && i < j < |ids|
    requires a < |Exits.PRECEDENCE| && FiringTrigger(l, snap, ids[j]) == Some(Exits.PRECEDENCE[a])
    ensures exists b: nat :: b <= a && FiringTrigger(l, snap, ids[i]) == Some(Exits.PRECEDENCE[b])
  {
    var key := UrgencyKey(l, snap, w);
    assert Precedes(key(ids[i]), key(ids[j]));
    FiringIsRanked(l, snap, ids[j]);
    FiringIsRanked(l, snap, ids[i]);
    hide Urgency, FiringTrigger, Sorted;
    assert Urgency(l, snap, ids[j]) == a;
    assert Urgency(l, snap, ids[i]) <= a;
  }

  /** Equally urgent, they go by their ids; a position that cannot be answered goes after all that can. */
  lemma TiesByRank(l: Ledger, snap: Snapshot, w: World, ids: seq<Id>, i: nat, j: nat)
    requires Sorted(ids, UrgencyKey(l, snap, w)) && i < j < |ids|
    ensures Urgency(l, snap, ids[i]) == Urgency(l, snap, ids[j]) ==> w.rank(ids[i]) <= w.rank(ids[j])
    ensures Unanswerable(l, snap, ids[i]) ==> Unanswerable(l, snap, ids[j])
  {
    var key := UrgencyKey(l, snap, w);
    assert Precedes(key(ids[i]), key(ids[j]));
    UnanswerableRanks(l, snap, ids[i]);
    UnanswerableRanks(l, snap, ids[j]);
    hide Urgency, Unanswerable, Sorted;
  }

  /** No fill to value it on, or a rule of the other direction outside the expiry guard. */
  predicate Unanswerable(l: Ledger, snap: Snapshot, id: Id)
  {
    id in l.positions ==>
      l.positions[id].debit.None? || (Exits.Disagrees(snap.exits(id)) && snap.exits(id).dte > 7)
  }

  lemma UnanswerableRanks(l: Ledger, snap: Snapshot, id: Id)
    ensures Urgency(l, snap, id) <= 6
    ensures Unanswerable(l, snap, id) <==> Urgency(l, snap, id) == 6
  {
    if id in l.positions && l.positions[id].debit.Some? {
      var s := ExitInputs(l.positions[id], snap, id);
      Exits.AuditRaisesWhereExitCloses(s);
      hide Exits.EvaluateExit;
    }
  }

  /**
    When an exit fires, on the row's own fill: a week to expiry, the rule, three sessions, a
    value of half the fill or less, or one that captures three fifths of what was left to
    gain, each level to the nearest cent.
  */
  lemma FiringReads(l: Ledger, snap: Snapshot, id: Id)
    requires id in l.positions && l.positions[id].debit.Some?
    requires snap.exits(id).dte <= 7 || !Exits.Disagrees(snap.exits(id))
    ensures Fires(snap.exits(id), l.positions[id].debit.value, -0.005) ==> FiringTrigger(l, snap, id).Some?
    ensures FiringTrigger(l, snap, id).Some? ==> Fires(snap.exits(id), l.positions[id].debit.value, 0.005)
  {
    var s := ExitInputs(l.positions[id], snap, id);
    Exits.TriggersRead(s);
    Exits.LevelsRead(s);
    hide Exits.EvaluateExit, Exits.StopLevel, Exits.ProfitTarget;
  }

  predicate Fires(x: Exits.Inputs, debit: real, slack: real)
  {
    || x.dte <= 7 || Exits.RuleSaysOut(x) || x.sessionsElapsed >= 3
    || (x.currentValue.Some? &&
        (x.currentValue.value <= debit / 2.0 + slack ||
         x.currentValue.value >= 0.4 * debit + 0.6 * x.width - slack))
  }

  lemma FiringIsRanked(l: Ledger, snap: Snapshot, id: Id)
    ensures Urgency(l, snap, id) < |Exits.PRECEDENCE| <==> FiringTrigger(l, snap, id).Some?
    ensures FiringTrigger(l, snap, id).Some? ==> Ranked(FiringTrigger(l, snap, id).value, Urgency(l, snap, id))
  {
  }

  predicate Ranked(t: Exits.Trigger, rank: nat)
  {
    rank < |Exits.PRECEDENCE| && Exits.PRECEDENCE[rank] == t
  }

  function Ids(rs: seq<Managed>): seq<Id>
  {
    Map(rs, (r: Managed) => r.id)
  }

  function Valued(rs: seq<Managed>): nat
  {
    if rs == [] then 0 else Valued(rs[..|rs| - 1]) + if rs[|rs| - 1].valued then 1 else 0
  }

  /** The rows with exposure to value. */
  predicate Valuable(l: Ledger, id: Id)
  {
    id in l.positions && l.positions[id].state in {Open, Closing}
  }

  function Select(ids: seq<Id>, l: Ledger, valuable: bool): (r: seq<Id>)
    ensures forall id :: id in r <==> id in ids && Valuable(l, id) == valuable
  {
    if ids == [] then []
    else
      var last := ids[|ids| - 1];
      assert ids == ids[..|ids| - 1] + [last];
      var front := Select(ids[..|ids| - 1], l, valuable);
      if Valuable(l, last) == valuable then front + [last] else front
  }

  lemma {:induction false} SelectSplits(ids: seq<Id>, l: Ledger)
    ensures multiset(Select(ids, l, true)) + multiset(Select(ids, l, false)) == multiset(ids)
  {
    if ids != [] {
      SelectSplits(ids[..|ids| - 1], l);
      assert ids == ids[..|ids| - 1] + [ids[|ids| - 1]];
    }
  }

  ghost predicate Managing(rs: seq<Managed>)
  {
    forall m :: m in rs && m.valued ==> m.action in MANAGING
  }

  /** What a tick that managed positions reports: the one valued position's own answer, or a summary. */
  function ResultFor(rs: seq<Managed>): Action
  {
    if Valued(rs) == 1 then TheValued(rs) else PositionsManaged
  }

  function TheValued(rs: seq<Managed>): Action
  {
    if rs == [] then PositionsManaged
    else if rs[0].valued then rs[0].action
    else TheValued(rs[1..])
  }

  /** What it reports is one of the answers managing can have, or the summary. */
  lemma ResultManages(rs: seq<Managed>)
    requires Managing(rs)
    ensures ResultFor(rs) in MANAGING + {PositionsManaged}
  {
    TheValuedManages(rs);
  }

  lemma ResultAnswers(rs: seq<Managed>)
    ensures Answers(rs, ResultFor(rs))
  {
    forall i: nat | OnlyValued(rs, i) ensures ResultFor(rs) == rs[i].action {
      OnlyOneCounts(rs, i);
      OnlyOneIsFound(rs, i);
    }
    if Valued(rs) == 1 { var i := OneIsOnly(rs); }
  }

  lemma {:induction false} NoneCounts(rs: seq<Managed>)
    ensures Valued(rs) == 0 <==> forall j :: 0 <= j < |rs| ==> !rs[j].valued
  {
    if rs != [] {
      var front := rs[..|rs| - 1];
      NoneCounts(front);
      assert forall j :: 0 <= j < |front| ==> front[j] == rs[j];
    }
  }

  lemma {:induction false} OnlyOneCounts(rs: seq<Managed>, i: nat)
    requires OnlyValued(rs, i)
    ensures Valued(rs) == 1
  {
    var front := rs[..|rs| - 1];
    if i == |front| {
      NoneCounts(front);
    } else {
      assert front[i] == rs[i];
      OnlyOneCounts(front, i);
    }
  }

  lemma {:induction false} OnlyOneIsFound(rs: seq<Managed>, i: nat)
    requires OnlyValued(rs, i)
    ensures TheValued(rs) == rs[i].action
  {
    if i > 0 {
      assert rs[1..][i - 1] == rs[i];
      OnlyOneIsFound(rs[1..], i - 1);
    }
  }

  lemma {:induction false} OneIsOnly(rs: seq<Managed>) returns (i: nat)
    requires Valued(rs) == 1
    ensures OnlyValued(rs, i)
  {
    var front := rs[..|rs| - 1];
    if rs[|rs| - 1].valued {
      NoneCounts(front);
      assert forall j :: 0 <= j < |front| ==> front[j] == rs[j];
      i := |front|;
    } else {
      i := OneIsOnly(front);
      assert forall j :: 0 <= j < |front| ==> front[j] == rs[j];
    }
  }

  lemma {:induction false} TheValuedManages(rs: seq<Managed>)
    requires Managing(rs)
    ensures TheValued(rs) in MANAGING + {PositionsManaged}
  {
    if rs != [] {
      assert rs[0] in rs;
      assert forall m :: m in rs[1..] ==> m in rs;
      TheValuedManages(rs[1..]);
    }
  }

  /** One result for each listed position, in the list's order. */
  ghost predicate OneEach(positions: seq<Id>, cycle: Cycle)
  {
    && Managing(cycle.results)
    && cycle.seen == |positions| && Ids(cycle.results) == positions
    && cycle.valued == Valued(cycle.results) <= cycle.seen
  }

  /** Since `b`: no opening order, and closes only for listed positions, one each at most. */
  ghost predicate ClosesOnceEach(b: Book, c: Book, ids: seq<Id>)
  {
    && Moves(b, c)
    && (forall k :: |b.events| <= k < |c.events| && c.events[k].CloseSent? ==> c.events[k].id in ids)
    && (forall j, k :: |b.events| <= j < k < |c.events| && c.events[j].CloseSent? && c.events[k].CloseSent? ==>
          c.events[j].id != c.events[k].id)
  }

  ghost predicate SendsOpening(b: Book, c: Book)
  {
    exists k :: |b.events| <= k < |c.events| && c.events[k].OpenSent?
  }

  function Max(x: int, y: int): int { if x < y then y else x }

  /** One slot: the unresolved rows stay within the first one, plus a row for each late fill reinstated. */
  ghost predicate SlotStep(b: Book, c: Book)
  {
    && b.events <= c.events && Revivals(b.events) <= Revivals(c.events)
    && |LiveIds(c.ledger)| <= Max(1, |LiveIds(b.ledger)|) + Revivals(c.events) - Revivals(b.events)
  }

  /** In no look of the call does the broker tell anything of the order the row waits for. */
  ghost predicate Unshown(w: World, id: Id, how: Plight)
  {
    (forall n: nat :: Silent(w.looks(n), id, how)) && (how == CloseUnsent ==> w.fault(id) != AtObservation)
  }

  /** Since `b`, the stuck rows outside the set are stuck as before, and none of them was closed. */
  ghost predicate KeepsStuck(b: Book, c: Book, w: World, but: set<Id>)
  {
    && b.events <= c.events
    && forall id, how :: id !in but && In(b.ledger, id, how) && Unshown(w, id, how) ==> StillIn(b, c, id, how)
  }

  ghost predicate StillIn(b: Book, c: Book, id: Id, how: Plight)
  {
    In(c.ledger, id, how) && !ClosesIts(b, c, id)
  }

  /** The book after the call's reconciliation, if the agent reconciles at all. */
  ghost function Looked(reconciles: bool, b: Book, look: BrokerRead): (c: Book)
    requires Consistent(b)
    ensures Consistent(c) && Moves(b, c)
  {
    MovesSelf(b);
    if reconciles then AfterLook(b, look) else b
  }

  /**
    What the deadline pass of a call and the look after it make of a CLOSING row: it stands
    open over its close exactly where the close could not be cancelled and the look reads the
    entry as filled.
  */
  ghost predicate CancelReopens(b: Book, l: Ledger, reconciles: bool, w: World, k: nat)
  {
    forall id, o :: ClosingOver(b.ledger, id, o) ==>
      (OpenOver(l, id, o) <==> reconciles && Uncancelled(b.ledger, id, w.now, w.cancel) && Reveals(w.looks(k), id))
  }

  lemma CancelReopened(b: Book, c: Book, ids: seq<Id>, reconciles: bool, w: World, k: nat)
    requires Consistent(b) && Consistent(c) && ListsManaged(b.ledger, ids) && Enforced(b, c, ids, w.now, w.cancel)
    ensures CancelReopens(b, Looked(reconciles, c, w.looks(k)).ledger, reconciles, w, k)
  {
    hide Consistent, ListsManaged, Enforced, Uncancelled, Reveals, AfterLook, Names, ClosingOver, OpenOver;
    forall id, o | ClosingOver(b.ledger, id, o)
      ensures OpenOver(Looked(reconciles, c, w.looks(k)).ledger, id, o) <==>
                (reconciles && Uncancelled(b.ledger, id, w.now, w.cancel) && Reveals(w.looks(k), id))
    {
      if reconciles {
        FailedCancelReopens(b, c, ids, w.now, w.cancel, w.looks(k), id, o);
      } else {
        ClosingIsARow(b.ledger, id, o);
        OverdueCloseIsAnIncident(b, c, ids, w.now, w.cancel, id);
        ClosedOver(c.ledger, id, o);
      }
    }
  }

  lemma ClosedOver(l: Ledger, id: Id, o: OrderId)
    requires id in l.positions && l.positions[id].state != Open
    ensures !OpenOver(l, id, o)
  {
  }

  /** Everything the tick checks before it considers an entry, and what the gateway asks. */
  predicate EntryAllowed(w: World, mayWrite: bool)
  {
    && w.observed.Some? && w.observed.value.usable && w.marketOpen && w.windowOpen && w.entry.Some?
    && Passes(mayWrite, Normal, false, w.entryDesk)
  }

  /** A deadline pass has something to do about this row. */
  predicate Due(l: Ledger, id: Id, now: int)
  {
    Owed(l, id, true) && (Late(l, id) || Overdue(l, id, now))
  }

  /** Managing a position raised, or answered that its exit did not get through. */
  predicate Failing(r: Option<Action>)
  {
    r.None? || r.value == ExitRefused || r.value == ExitBlocked
  }

  ghost predicate SendsClose(b: Book, c: Book)
  {
    exists k :: |b.events| <= k < |c.events| && c.events[k].CloseSent?
  }

  lemma QuietCloses(b: Book, c: Book, ids: seq<Id>)
    requires Moves(b, c) && !SendsClose(b, c)
    ensures ClosesOnceEach(b, c, ids)
  {
  }

  lemma ClosesChain(a: Book, b: Book, c: Book, ids: seq<Id>, more: seq<Id>)
    requires ClosesOnceEach(a, b, ids) && ClosesOnceEach(b, c, more) && forall id :: id in ids ==> id !in more
    ensures ClosesOnceEach(a, c, ids + more)
    ensures SendsClose(a, c) <==> SendsClose(a, b) || SendsClose(b, c)
  {
    MovesChain(a, b, c);
    hide Moves;
    assert b.events <= c.events by { MovesPrefix(b, c); }
    assert a.events <= b.events by { MovesPrefix(a, b); }
    assert forall k :: 0 <= k < |b.events| ==> c.events[k] == b.events[k];
    if SendsClose(a, b) {
      var k :| |a.events| <= k < |b.events| && b.events[k].CloseSent?;
      assert c.events[k].CloseSent?;
    }
  }

  lemma MovesPrefix(b: Book, c: Book)
    requires Moves(b, c)
    ensures b.events <= c.events
  {
  }

  /** The close order this cycle would send for a position, if its exit fires and can be priced. */
  function CloseClient(l: Ledger, w: World, snap: Snapshot, id: Id): Option<ClientId>
  {
    if id !in l.positions || l.positions[id].state != Open || l.positions[id].debit.None? then None
    else
      var decision := Exits.EvaluateExit(ExitInputs(l.positions[id], snap, id));
      if decision.Failure? || !decision.value.shouldClose || decision.value.suggestedLimit.None? then None
      else Some(w.closeClient(id, l.positions[id].filled, decision.value.trigger, decision.value.suggestedLimit.value))
  }

  /** Whether it reaches the broker. */
  predicate CloseGoesOut(l: Ledger, state: ExecutionState, mayWrite: bool, w: World, snap: Snapshot, id: Id)
  {
    && CloseClient(l, w, snap, id).Some? && CloseClient(l, w, snap, id).value !in l.intents
    && var s := ExitInputs(l.positions[id], snap, id);
       && !Exits.Disagrees(s) && w.fault(id) != AtObservation && w.fault(id) != AtRecord
       && Passes(mayWrite, if Exits.Unverifiable(s) then NoNewRisk else state, true, w.closeDesk(id))
  }

  /** What an exit ends as when it fired and its close did not get through, or when managing raised. */
  const FAILING: set<Action> := {ManagementFailed, ExitRefused, ExitBlocked}

  /** An exit fired where orders are permitted, and its close did not go out. */
  predicate ExitLost(l: Ledger, state: ExecutionState, mayWrite: bool, w: World, snap: Snapshot, id: Id)
  {
    && id in l.positions && l.positions[id].state == Open && FiringTrigger(l, snap, id).Some?
    && mayWrite && !CloseGoesOut(l, state, mayWrite, w, snap, id)
  }

  predicate InIncident(l: Ledger, id: Id)
  {
    id in l.positions && l.positions[id].state == Incident
  }

  /** A close was answered: it went out, the broker's answer came back, and keeping it did not raise. */
  predicate CloseAnswered(l: Ledger, state: ExecutionState, mayWrite: bool, w: World, snap: Snapshot, id: Id)
  {
    CloseGoesOut(l, state, mayWrite, w, snap, id) && !w.closeDesk(id).response.Lost? && w.fault(id) != AtResponse
  }

  // ------------------------------------------------------------- what an operation leaves

  /** The book, the gateway's state, and the answer where nothing raised. */
  datatype Outcome = Outcome(book: Book, gate: ExecutionState, action: Option<Action>)

  /** The broker was asked at the end. */
  ghost function ThenLooked(m: Means, b: Book, gate: ExecutionState, look: BrokerRead, action: Action): Outcome
  {
    Outcome(if Consistent(b) then Looked(m.reconciles, b, look) else b, GateAfter(m.reconciles, b, look, gate),
            Some(action))
  }

  /** A submission was answered: the answer is recorded, and the broker asked what is true. */
  ghost function AnsweredBy(m: Means, b: Book, gate: ExecutionState, o: OrderId, answer: Submission, w: World, k: nat,
                            action: Action): Outcome
    requires o in b.ledger.orders
  {
    var state := if answer.ambiguous then Ambiguous else answer.status;
    ThenLooked(m, AfterResponse(b, o, state, answer.hasId, w.now), gate, w.looks(k), action)
  }

  /** A close under `client`: committed, recorded, sent. */
  ghost function ClosedBy(m: Means, b: Book, gate: ExecutionState, id: Id, client: ClientId, s: Exits.Inputs,
                          w: World, k: nat): Outcome
    requires id in b.ledger.positions
  {
    var o, c := b.ledger.next, AfterPrepareClose(b, id, client);
    var d := AfterSend(c, CloseSent(id, client));
    if client in b.ledger.intents then Outcome(b, gate, None)
    else if w.fault(id) == AtRecord || Exits.Disagrees(s) then Outcome(c, gate, None)
    else
      match Submit(m.mayWrite, gate, true, w.closeDesk(id))
      case Failure(Guarded) => Outcome(AfterResponse(c, o, Ambiguous, false, w.now), gate, Some(ExitRefused))
      case Failure(OutcomeUnknown) => Outcome(AfterResponse(d, o, Ambiguous, false, w.now), gate, Some(ExitRefused))
      case Success(answer) =>
        if w.fault(id) == AtResponse then Outcome(d, gate, None)
        else AnsweredBy(m, d, gate, o, answer, w, k, CloseSubmitted)
  }

  /** A premium that cannot be read and a rule that cannot be judged are an incident each. */
  function FoundBy(b: Book, id: Id, d: Exits.ExitDecision): (c: Book)
    requires id in b.ledger.positions
    ensures id in c.ledger.positions
  {
    var c := if d.valueUnmeasurable then AfterIncident(b, id) else b;
    if d.invalidationUnverifiable then AfterIncident(c, id) else c
  }

  /** An open position with a fill: what its decision leads to. */
  ghost function DecidedBy(m: Means, b: Book, gate: ExecutionState, id: Id, s: Exits.Inputs, d: Exits.ExitDecision,
                           w: World, k: nat): Outcome
    requires id in b.ledger.positions
  {
    var c := FoundBy(b, id, d);
    var g := if d.valueUnmeasurable || d.invalidationUnverifiable then NoNewRisk else gate;
    var kept := w.fault(id) != AtRecord && !Exits.Disagrees(s);
    if !d.shouldClose then
      var held := if d.trigger == Exits.Unmeasurable then PositionReview else PositionHeld;
      Outcome(c, g, if kept then Some(held) else None)
    else if !m.mayWrite || d.suggestedLimit.None? then
      Outcome(c, g, if kept then Some(if !m.mayWrite then ExitSignalled else ExitBlocked) else None)
    else
      var client := w.closeClient(id, b.ledger.positions[id].filled, d.trigger, d.suggestedLimit.value);
      ClosedBy(m, c, g, id, client, s, w, k)
  }

  /** Managing one position with exposure. */
  ghost function ManagedBy(m: Means, b: Book, gate: ExecutionState, id: Id, snap: Snapshot, w: World, k: nat): Outcome
    requires id in b.ledger.positions
  {
    var p := b.ledger.positions[id];
    if p.debit.None? then Outcome(AfterIncident(b, id), gate, Some(PositionReview))
    else if w.fault(id) == AtObservation then Outcome(b, gate, None)
    else if p.state == Closing then Outcome(b, gate, Some(CloseWorking))
    else
      match Exits.EvaluateExit(ExitInputs(p, snap, id))
      case Failure(_) => Outcome(AfterIncident(b, id), NoNewRisk, Some(PositionReview))
      case Success(d) => DecidedBy(m, b, gate, id, ExitInputs(p, snap, id), d, w, k)
  }

  /** Its whole turn: left alone where it holds nothing any more, and contained where managing it failed. */
  ghost function TurnBy(m: Means, b: Book, gate: ExecutionState, id: Id, snap: Snapshot, w: World, k: nat): Outcome
  {
    if !Valuable(b.ledger, id) then Outcome(b, gate, Some(ResolvedMidCycle))
    else
      var o := ManagedBy(m, b, gate, id, snap, w, k);
      if Failing(o.action) then
        Outcome(InTrouble(o.book, id), NoNewRisk, Some(if o.action.None? then ManagementFailed else o.action.value))
      else o
  }

  function InTrouble(b: Book, id: Id): Book
  {
    if id in b.ledger.positions then AfterIncident(b, id) else b
  }

  // ------------------------------------------------------------------ the turns of a cycle

  /** One position's turn: the book and the gateway it met, what it left of both, and its answer. */
  datatype Turn = Turn(before: Book, state: ExecutionState, after: Book, left: ExecutionState, action: Action)

  /** What the turn after the first k meets. */
  function BookMet(turns: seq<Turn>, start: Book, k: nat): Book
    requires k <= |turns|
  {
    if k == 0 then start else turns[k - 1].after
  }

  function StateMet(turns: seq<Turn>, state: ExecutionState, k: nat): ExecutionState
    requires k <= |turns|
  {
    if k == 0 then state else turns[k - 1].left
  }

  /**
    Each position had its turn on what the one before it left, from the book `start` and the
    gateway's `state` to `end` and `left`; the k-th of them asks the broker for the look after
    the first k.
  */
  ghost predicate InTurn(turns: seq<Turn>, ids: seq<Id>, snap: Snapshot, w: World, m: Means,
                         start: Book, state: ExecutionState, end: Book, left: ExecutionState)
  {
    && AllTook(turns, ids, snap, w, m) && Linked(turns, start, state)
    && end == BookMet(turns, start, |turns|) && left == StateMet(turns, state, |turns|)
  }

  ghost predicate AllTook(turns: seq<Turn>, ids: seq<Id>, snap: Snapshot, w: World, m: Means)
  {
    && |turns| == |ids|
    && forall k :: 0 <= k < |turns| ==> TookTurn(turns[k], ids[k], snap, w, m, k + 1)
  }

  ghost predicate Linked(turns: seq<Turn>, start: Book, state: ExecutionState)
  {
    forall k :: 0 <= k < |turns| ==>
      turns[k].before == BookMet(turns, start, k) && turns[k].state == StateMet(turns, state, k)
  }

  /** What the gateway's state can become: a pass or a halt lifts a freeze, and nothing sets one. */
  predicate Unfreezing(s: ExecutionState, t: ExecutionState)
  {
    s != FreezeAllWrites ==> t != FreezeAllWrites
  }

  /**
    A turn left exactly what managing the position leaves. A close of its own went out exactly
    when its own exit fired and could be sent, its answer says so exactly when the broker
    answered, and an exit that fired and was not sent leaves the row in an incident.
  */
  ghost predicate TookTurn(t: Turn, id: Id, snap: Snapshot, w: World, m: Means, k: nat)
  {
    && Outcome(t.after, t.left, Some(t.action)) == TurnBy(m, t.before, t.state, id, snap, w, k)
    && ClosesOnceEach(t.before, t.after, [id]) && Unfreezing(t.state, t.left)
    && (SendsClose(t.before, t.after) <==> CloseGoesOut(t.before.ledger, t.state, m.mayWrite, w, snap, id))
    && (t.action == CloseSubmitted <==> CloseAnswered(t.before.ledger, t.state, m.mayWrite, w, snap, id))
    && (ExitLost(t.before.ledger, t.state, m.mayWrite, w, snap, id) ==>
          t.action in FAILING && InIncident(t.after.ledger, id))
  }

  /** A close of each position went out exactly on that position's own condition, no gateway state in the way. */
  ghost predicate EachOnItsOwn(turns: seq<Turn>, ids: seq<Id>, snap: Snapshot, w: World, m: Means)
  {
    && |turns| == |ids|
    && forall k :: 0 <= k < |turns| ==>
         (SendsClose(turns[k].before, turns[k].after) <==>
          CloseGoesOut(turns[k].before.ledger, Normal, m.mayWrite, w, snap, ids[k]))
  }

  /** A whole cycle on a snapshot: most urgent first, each in its turn, and each on its own. */
  ghost predicate InUrgencyOrder(ids: seq<Id>, turns: seq<Turn>, snap: Snapshot, w: World, m: Means,
                                 start: Book, state: ExecutionState, end: Book, left: ExecutionState)
  {
    && Sorted(ids, UrgencyKey(start.ledger, snap, w))
    && InTurn(turns, ids, snap, w, m, start, state, end, left)
    && (state != FreezeAllWrites ==> EachOnItsOwn(turns, ids, snap, w, m))
  }

  lemma UrgencyKept(ids: seq<Id>, turns: seq<Turn>, snap: Snapshot, w: World, m: Means,
                    start: Book, state: ExecutionState, end: Book, left: ExecutionState)
    requires Sorted(ids, UrgencyKey(start.ledger, snap, w))
    requires InTurn(turns, ids, snap, w, m, start, state, end, left)
    ensures InUrgencyOrder(ids, turns, snap, w, m, start, state, end, left)
  {
    hide InTurn, Sorted, EachOnItsOwn, UrgencyKey;
    if state != FreezeAllWrites { UnfrozenTurns(turns, ids, snap, w, m, start, state, end, left); }
  }

  /** With a gateway that is not frozen at the start, every firing, priced, new close is sent. */
  lemma UnfrozenTurns(turns: seq<Turn>, ids: seq<Id>, snap: Snapshot, w: World, m: Means,
                      start: Book, state: ExecutionState, end: Book, left: ExecutionState)
    requires InTurn(turns, ids, snap, w, m, start, state, end, left) && state != FreezeAllWrites
    ensures EachOnItsOwn(turns, ids, snap, w, m)
  {
    hide SendsClose, CloseGoesOut, TookTurn, Linked;
    forall k | 0 <= k < |turns|
      ensures SendsClose(turns[k].before, turns[k].after) <==>
                CloseGoesOut(turns[k].before.ledger, Normal, m.mayWrite, w, snap, ids[k])
    {
      TookOne(turns, ids, snap, w, m, k);
      NeverFrozen(turns, ids, snap, w, m, start, state, k);
      AnyUnfrozenState(turns[k].before.ledger, turns[k].state, m.mayWrite, w, snap, ids[k]);
    }
  }

  lemma {:induction false} NeverFrozen(turns: seq<Turn>, ids: seq<Id>, snap: Snapshot, w: World, m: Means,
                                       start: Book, state: ExecutionState, k: nat)
    requires AllTook(turns, ids, snap, w, m) && Linked(turns, start, state)
    requires state != FreezeAllWrites && k < |turns|
    ensures turns[k].state != FreezeAllWrites
  {
    hide AllTook;
    assert turns[k].state == StateMet(turns, state, k);
    if k > 0 {
      NeverFrozen(turns, ids, snap, w, m, start, state, k - 1);
      AsManyTurns(turns, ids, snap, w, m);
      TookOne(turns, ids, snap, w, m, k - 1);
    }
  }

  lemma AsManyTurns(turns: seq<Turn>, ids: seq<Id>, snap: Snapshot, w: World, m: Means)
    requires AllTook(turns, ids, snap, w, m)
    ensures |turns| == |ids|
  {
  }

  lemma TookOne(turns: seq<Turn>, ids: seq<Id>, snap: Snapshot, w: World, m: Means, k: nat)
    requires AllTook(turns, ids, snap, w, m) && k < |turns| == |ids|
    ensures Unfreezing(turns[k].state, turns[k].left)
    ensures SendsClose(turns[k].before, turns[k].after) <==>
              CloseGoesOut(turns[k].before.ledger, turns[k].state, m.mayWrite, w, snap, ids[k])
  {
    hide ClosesOnceEach, SendsClose, CloseGoesOut, TurnBy, CloseAnswered, ExitLost, InIncident, Unfreezing;
    assert TookTurn(turns[k], ids[k], snap, w, m, k + 1);
  }

  lemma AnyUnfrozenState(l: Ledger, state: ExecutionState, mayWrite: bool, w: World, snap: Snapshot, id: Id)
    requires state != FreezeAllWrites
    ensures CloseGoesOut(l, state, mayWrite, w, snap, id) <==> CloseGoesOut(l, Normal, mayWrite, w, snap, id)
  {
    hide CloseClient;
  }

  lemma OneMoreTurn(turns: seq<Turn>, ids: seq<Id>, snap: Snapshot, w: World, m: Means,
                    start: Book, state: ExecutionState, end: Book, left: ExecutionState, t: Turn, id: Id)
    requires InTurn(turns, ids, snap, w, m, start, state, end, left)
    requires t.before == end && t.state == left && TookTurn(t, id, snap, w, m, |ids| + 1)
    ensures InTurn(turns + [t], ids + [id], snap, w, m, start, state, t.after, t.left)
    ensures |turns| == |ids|
  {
    AsManyTurns(turns, ids, snap, w, m);
    OneMoreTook(turns, ids, snap, w, m, t, id);
    OneMoreLink(turns, start, state, t);
    hide TookTurn, AllTook, Linked;
  }

  lemma OneMoreTook(turns: seq<Turn>, ids: seq<Id>, snap: Snapshot, w: World, m: Means, t: Turn, id: Id)
    requires AllTook(turns, ids, snap, w, m) && TookTurn(t, id, snap, w, m, |ids| + 1)
    ensures AllTook(turns + [t], ids + [id], snap, w, m)
  {
    hide TookTurn;
  }

  lemma OneMoreLink(turns: seq<Turn>, start: Book, state: ExecutionState, t: Turn)
    requires Linked(turns, start, state)
    requires t.before == BookMet(turns, start, |turns|) && t.state == StateMet(turns, state, |turns|)
    ensures Linked(turns + [t], start, state)
  {
  }

  /** The results of a cycle tell each turn's own answer, as a value where a tick result came back. */
  ghost predicate Tells(results: seq<Managed>, ids: seq<Id>, turns: seq<Turn>)
  {
    && |turns| == |ids|
    && forall k :: 0 <= k < |ids| ==> Told(ids[k], turns[k]) in results
  }

  function Told(id: Id, t: Turn): Managed
  {
    Managed(id, t.action, t.action in MANAGING)
  }

  /** With nothing to value them on, the results say why. */
  ghost predicate TellsUnvalued(results: seq<Managed>, ids: seq<Id>, why: Action)
  {
    forall id :: id in ids ==> Managed(id, why, false) in results
  }

  /** The rows that own the slot and hold nothing to value are reported too. */
  ghost predicate TellsOthers(results: seq<Managed>, ids: seq<Id>, l: Ledger)
  {
    forall id :: id in ids && id in l.positions && !Valuable(l, id) ==>
      Managed(id, if l.positions[id].state == Pending then EntryInFlight else PositionIncident, false) in results
  }

  /** A close is already working: the position is marked and nothing else happens to it. */
  predicate Waits(l: Ledger, w: World, id: Id)
  {
    && id in l.positions && l.positions[id].state == Closing && l.positions[id].debit.Some?
    && w.fault(id) != AtObservation
  }

  /** The snapshot a cycle values positions on: the one passed in, else its own observation. */
  function Observed(given: Option<Snapshot>, givenOpen: bool, w: World): Option<Snapshot>
  {
    if given.Some? then (if givenOpen then given else None)
    else if w.marketOpen then w.observed
    else None
  }

  /** The gateway's state once the call has reconciled, if it does. */
  ghost function GateAfter(reconciles: bool, b: Book, look: BrokerRead, state: ExecutionState): ExecutionState
  {
    if !reconciles then state else if CleanLook(b, look) then Normal else NoNewRisk
  }

  /**
    What a tick may answer, by the first of its checks that stops it, on the book `b` it has
    reconciled; `halted` where that pass was not clean.
  */
  ghost function TickAnswers(enforces: bool, hasStore: bool, mayWrite: bool, b: Book, halted: bool,
                             w: World): set<Action>
  {
    if enforces && (exists id :: Due(b.ledger, id, w.now)) then {DeadlineAction}
    else DecisionAnswers(hasStore, mayWrite, b, halted, w)
  }

  ghost function DecisionAnswers(hasStore: bool, mayWrite: bool, b: Book, halted: bool, w: World): set<Action>
  {
    if w.observed.None? then {ObserveFailed}
    else if !w.marketOpen then {MarketClosed}
    else OpenMarketAnswers(hasStore, mayWrite, b, halted, w)
  }

  ghost function OpenMarketAnswers(hasStore: bool, mayWrite: bool, b: Book, halted: bool, w: World): set<Action>
    requires w.observed.Some?
  {
    if exists id :: id in Owned(b.ledger, hasStore) && Valuable(b.ledger, id) then MANAGING + {PositionsManaged}
    else if Owned(b.ledger, hasStore) != [] then {EntryInFlight}
    else if halted then {EntryHalted}
    else if !w.windowOpen then {OutsideEntryWindow}
    else if !w.observed.value.usable then {EntryHalted}
    else if w.entry.None? then {NoTrade}
    else if !mayWrite then {TradeCandidate}
    else {EntryRefused, EntryAmbiguous, EntrySubmitted}
  }

  // ------------------------------------------------------------------ what a call leaves

  /** An opening order goes out: approved, past every guard, and under a new client id where it is persisted. */
  predicate OpeningGoesOut(l: Ledger, state: ExecutionState, m: Means, persists: bool, w: World)
  {
    && w.entry.Some? && Passes(m.mayWrite, state, false, w.entryDesk)
    && (persists ==> w.entry.value !in l.intents)
  }

  /** An entry with its intent, its order and a PENDING row committed before it is sent. */
  ghost function PersistedEntryBy(m: Means, b: Book, gate: ExecutionState, client: ClientId, w: World, k: nat): Outcome
  {
    var id, c := b.ledger.next, AfterPrepareEntry(b, client);
    var d := AfterSend(c, OpenSent(client));
    if client in b.ledger.intents then Outcome(b, gate, Some(EntryRefused))
    else
      match Submit(m.mayWrite, gate, false, w.entryDesk)
      case Failure(Guarded) => Outcome(GivenUp(c, id, w.now), gate, Some(EntryRefused))
      case Failure(OutcomeUnknown) =>
        var e := AfterIncident(AfterResponse(d, id, Ambiguous, false, w.now), id);
        ThenLooked(m, e, NoNewRisk, w.looks(k), EntryAmbiguous)
      case Success(answer) => AnsweredBy(m, d, gate, id, answer, w, k, EntrySubmitted)
  }

  function GivenUp(c: Book, id: Id, now: int): Book
    requires id in c.ledger.orders && id in c.ledger.positions
  {
    AfterEntry(AfterResponse(c, id, Ambiguous, false, now), id, Rejected, 0, None)
  }

  /** An entry of which nothing is kept before it is sent. */
  ghost function BareEntryBy(m: Means, b: Book, gate: ExecutionState, client: ClientId, w: World, k: nat): Outcome
  {
    var d := AfterSend(b, OpenSent(client));
    match Submit(m.mayWrite, gate, false, w.entryDesk)
    case Failure(Guarded) => Outcome(b, gate, Some(EntryRefused))
    case Failure(OutcomeUnknown) => ThenLooked(m, d, NoNewRisk, w.looks(k), EntryAmbiguous)
    case Success(_) => ThenLooked(m, d, gate, w.looks(k), EntrySubmitted)
  }

  ghost function EntryBy(m: Means, persists: bool, b: Book, gate: ExecutionState, w: World, k: nat): Outcome
  {
    if w.entry.None? then Outcome(b, gate, Some(NoTrade))
    else if !m.mayWrite then Outcome(b, gate, Some(TradeCandidate))
    else if persists then PersistedEntryBy(m, b, gate, w.entry.value, w, k)
    else BareEntryBy(m, b, gate, w.entry.value, w, k)
  }

  /** The deadline pass over every row, the orders it asked to end, and the look after it. */
  ghost predicate DeadlinesDid(m: Means, b: Book, gate: ExecutionState, w: World, k: nat, o: Outcome,
                               asked: seq<OrderId>, d: Book, ids: seq<Id>)
  {
    && Consistent(b) && Consistent(d) && ListsManaged(b.ledger, ids) && Enforced(b, d, ids, w.now, w.cancel)
    && o == ThenLooked(m, d, if Halting(b.ledger, ids, w) then NoNewRisk else gate, w.looks(k), DeadlineAction)
    && Asked(b.ledger, ids, w, asked)
  }

  ghost predicate Halting(l: Ledger, ids: seq<Id>, w: World)
  {
    exists id :: id in ids && (Late(l, id) || Uncancelled(l, id, w.now, w.cancel))
  }

  ghost predicate Asked(l: Ledger, ids: seq<Id>, w: World, asked: seq<OrderId>)
  {
    forall o: OrderId :: o in asked <==> exists id :: id in ids && AsksFor(l, id, w.now, w.cancel, o)
  }

  ghost predicate EnforcedThenLooked(m: Means, b: Book, gate: ExecutionState, w: World, k: nat, o: Outcome,
                                     asked: seq<OrderId>)
  {
    exists d, ids :: DeadlinesDid(m, b, gate, w, k, o, asked, d, ids)
  }

  /** Something is owned that has exposure to manage. */
  ghost predicate Exposed(l: Ledger, hasStore: bool)
  {
    exists id :: id in Owned(l, hasStore) && Valuable(l, id)
  }

  predicate OnlyValued(rs: seq<Managed>, i: nat)
  {
    i < |rs| && rs[i].valued && forall j :: 0 <= j < |rs| && j != i ==> !rs[j].valued
  }

  /** The one valued position's own answer, and a summary where there is not exactly one. */
  ghost predicate Answers(rs: seq<Managed>, action: Action)
  {
    && (forall i: nat :: OnlyValued(rs, i) ==> action == rs[i].action)
    && ((forall i: nat :: !OnlyValued(rs, i)) ==> action == PositionsManaged)
  }

  /** All valuable positions took their turns on the call's snapshot, and the results tell of each. */
  ghost predicate Cycled(m: Means, b: Book, gate: ExecutionState, w: World, o: Outcome, results: seq<Managed>,
                         acted: seq<Id>, turns: seq<Turn>)
    requires w.observed.Some?
  {
    && multiset(acted) == multiset(Select(Owned(b.ledger, m.hasStore), b.ledger, true))
    && InUrgencyOrder(acted, turns, w.observed.value, w, m, b, gate, o.book, o.gate)
    && Tells(results, acted, turns)
  }

  /** A single valuable position has its close sent exactly on its own condition. */
  ghost predicate AloneCloses(m: Means, b: Book, gate: ExecutionState, w: World, c: Book)
    requires w.observed.Some?
  {
    forall id: Id :: Select(Owned(b.ledger, m.hasStore), b.ledger, true) == [id] ==>
      (SendsClose(b, c) <==> CloseGoesOut(b.ledger, gate, m.mayWrite, w, w.observed.value, id))
  }

  /** A management cycle took place, on a book with something to value. */
  ghost predicate CycleDid(m: Means, b: Book, gate: ExecutionState, w: World, o: Outcome, last: Option<Cycle>)
    requires w.observed.Some?
  {
    && o.action.Some? && last.Some? && OneEach(Owned(b.ledger, m.hasStore), last.value)
    && Answers(last.value.results, o.action.value)
    && TellsOthers(last.value.results, Owned(b.ledger, m.hasStore), b.ledger)
    && (exists acted, turns :: Cycled(m, b, gate, w, o, last.value.results, acted, turns))
    && AloneCloses(m, b, gate, w, o.book)
  }

  /** With the market open: manage what has exposure, else wait or halt, else consider one entry. */
  ghost predicate OpenMarketDid(m: Means, persists: bool, b: Book, gate: ExecutionState, halted: bool, w: World,
                                o: Outcome, last: Option<Cycle>)
    requires w.observed.Some?
  {
    if Exposed(b.ledger, m.hasStore) then CycleDid(m, b, gate, w, o, last)
    else if Owned(b.ledger, m.hasStore) != [] then o == Outcome(b, gate, Some(EntryInFlight))
    else if halted then o == Outcome(b, gate, Some(EntryHalted))
    else if !w.windowOpen then o == Outcome(b, gate, Some(OutsideEntryWindow))
    else if !w.observed.value.usable then o == Outcome(b, NoNewRisk, Some(EntryHalted))
    else o == EntryBy(m, persists, b, gate, w, 1)
  }

  /** Whether that half of a tick sends an opening order. */
  predicate EntersMarket(m: Means, persists: bool, b: Book, gate: ExecutionState, halted: bool, w: World)
    requires w.observed.Some?
  {
    && Owned(b.ledger, m.hasStore) == [] && !halted && w.windowOpen && w.observed.value.usable
    && OpeningGoesOut(b.ledger, gate, m, persists, w)
  }

  /** Once no deadline is due: without an observation, or with the market closed, nothing happens. */
  ghost predicate DecisionDid(m: Means, persists: bool, b: Book, gate: ExecutionState, halted: bool, w: World,
                              o: Outcome, last: Option<Cycle>)
  {
    if w.observed.None? then o == Outcome(b, gate, Some(ObserveFailed))
    else if !w.marketOpen then o == Outcome(b, gate, Some(MarketClosed))
    else OpenMarketDid(m, persists, b, gate, halted, w, o, last)
  }

  predicate DecisionOpens(m: Means, persists: bool, b: Book, gate: ExecutionState, halted: bool, w: World)
  {
    w.observed.Some? && w.marketOpen && EntersMarket(m, persists, b, gate, halted, w)
  }

  /** A whole tick, from the book `a` and the gateway's state as it starts. */
  ghost predicate TickDid(m: Means, persists: bool, a: Book, start: ExecutionState, w: World, o: Outcome,
                          last: Option<Cycle>, asked: seq<OrderId>)
    requires Consistent(a)
  {
    var b, gate := Looked(m.reconciles, a, w.looks(0)), GateAfter(m.reconciles, a, w.looks(0), start);
    if m.enforces && exists id :: Due(b.ledger, id, w.now) then EnforcedThenLooked(m, b, gate, w, 1, o, asked)
    else DecisionDid(m, persists, b, gate, m.reconciles && !CleanLook(a, w.looks(0)), w, o, last)
  }

  ghost predicate TickOpens(m: Means, persists: bool, a: Book, start: ExecutionState, w: World)
    requires Consistent(a)
  {
    var b, gate := Looked(m.reconciles, a, w.looks(0)), GateAfter(m.reconciles, a, w.looks(0), start);
    && !(m.enforces && exists id :: Due(b.ledger, id, w.now))
    && DecisionOpens(m, persists, b, gate, m.reconciles && !CleanLook(a, w.looks(0)), w)
  }

  // ---------------------------------------------------------------------------- the agent

  class TradingAgent {
    const store: LifecycleStore
    const reconciler: Reconciler
    const enforcer: DeadlineEnforcer
    const hasStore: bool
    const hasReconciler: bool
    const hasDeadlines: bool
    const mayWrite: bool    // a gateway is there and the settings permit orders
    const records: bool     // a recorder and a run are there, so a decision gets its row

    var executionState: ExecutionState
    var gatewayState: ExecutionState
    var decisionRow: bool
    var history: seq<Action>
    var lastCycle: Option<Cycle>
    var lastAsked: seq<OrderId>    // what the last deadline pass asked the broker to end

    constructor (store: LifecycleStore, hasStore: bool, hasReconciler: bool, hasDeadlines: bool, mayWrite: bool,
                 records: bool)
      requires Consistent(store.Contents())
      ensures Valid() && this.store == store && this.hasStore == hasStore && this.hasReconciler == hasReconciler
      ensures this.hasDeadlines == hasDeadlines && this.mayWrite == mayWrite && this.records == records
      ensures executionState == gatewayState == Normal && !decisionRow && history == [] && lastCycle == None
      ensures lastAsked == []
    {
      this.store := store;
      reconciler := new Reconciler(store);
      enforcer := new DeadlineEnforcer(store);
      this.hasStore, this.hasReconciler, this.hasDeadlines := hasStore, hasReconciler, hasDeadlines;
      this.mayWrite, this.records := mayWrite, records;
      executionState, gatewayState := Normal, Normal;
      decisionRow, history, lastCycle, lastAsked := false, [], None, [];
    }

    function Powers(): Means
    {
      Means(hasStore, hasReconciler, hasDeadlines && mayWrite, mayWrite)
    }

    ghost predicate Valid()
      reads this, store
    {
      reconciler.store == store && enforcer.store == store && Consistent(store.Contents())
    }

    /** Whatever state was set before, a pass leaves the gateway NORMAL or NO_NEW_RISK. */
    method Reconcile(w: World, k: nat) returns (clean: Option<bool>)
      requires Valid()
      modifies store, this`executionState, this`gatewayState
      ensures Valid() && store.Contents() == Looked(hasReconciler, old(store.Contents()), w.looks(k))
      ensures clean == if hasReconciler then Some(CleanLook(old(store.Contents()), w.looks(k))) else None
      ensures clean.Some? ==> gatewayState == executionState == if clean.value then Normal else NoNewRisk
      ensures clean.None? ==> gatewayState == old(gatewayState) && executionState == old(executionState)
      ensures Unfreezing(old(gatewayState), gatewayState)
      ensures Moves(old(store.Contents()), store.Contents()) && !SendsClose(old(store.Contents()), store.Contents())
      ensures KeepsStuck(old(store.Contents()), store.Contents(), w, {})
    {
      hide Consistent, Follow, AfterLook, CleanLook, KeepsStuck, Moves;
      ghost var b := store.Contents();
      MovesSelf(b);
      NothingSent(b);
      StuckSelf(b, w, {});
      if !hasReconciler { return None; }
      LookIsQuiet(b, w, k);
      var ok := reconciler.Reconcile(w.looks(k));
      executionState := if ok then Normal else NoNewRisk;
      gatewayState := executionState;
      clean := Some(ok);
    }

    method HaltNewRisk()
      modifies this`executionState, this`gatewayState
      ensures executionState == gatewayState == NoNewRisk
    {
      executionState := NoNewRisk;
      gatewayState := NoNewRisk;
    }

    /** One position; no answer where something raised. */
    method ManageOpenPosition(id: Id, snap: Snapshot, w: World, k: nat) returns (r: Option<Action>)
      requires Valid() && id in store.ledger.positions && store.ledger.positions[id].state in {Open, Closing}
      modifies store, this`executionState, this`gatewayState
      ensures Valid() && ClosesOnceEach(old(store.Contents()), store.Contents(), [id])
      ensures SendsClose(old(store.Contents()), store.Contents()) <==>
                CloseGoesOut(old(store.ledger), old(gatewayState), mayWrite, w, snap, id)
      ensures r.Some? ==> r.value in MANAGING
      ensures r == Some(CloseSubmitted) <==> CloseAnswered(old(store.ledger), old(gatewayState), mayWrite, w, snap, id)
      ensures ExitLost(old(store.ledger), old(gatewayState), mayWrite, w, snap, id) ==> Failing(r)
      ensures Failing(r) ==> IsLive(store.ledger, id)
      ensures r == Some(ExitRefused) || (Failing(r) && SendsClose(old(store.Contents()), store.Contents())) ==>
                CloseUnended(store.ledger, id)
      ensures old(store.ledger.positions[id].debit.Some?) && w.fault(id) == AtObservation ==>
                r == None && store.Contents() == old(store.Contents())
      ensures Waits(old(store.ledger), w, id) ==> r == Some(CloseWorking) && store.Contents() == old(store.Contents())
      ensures Unfreezing(old(gatewayState), gatewayState)
      ensures Outcome(store.Contents(), gatewayState, r) ==
              ManagedBy(Powers(), old(store.Contents()), old(gatewayState), id, snap, w, k)
      ensures KeepsStuck(old(store.Contents()), store.Contents(), w, {id})
    {
      hide Consistent, Follow, Moves, Exits.EvaluateExit, KeepsStuck, CloseUnended, AfterIncident;
      hide ClosesOnceEach, SendsClose, Exits.Disagrees, Exits.Unverifiable, ClosedBy, FoundBy;
      ghost var b := store.Contents();
      MovesSelf(b);
      StuckSelf(b, w, {id});
      var p := store.ledger.positions[id];
      if p.debit.None? {
        RaiseIncident(id, w);
        return Some(PositionReview);
      }
      NothingSent(b);
      QuietCloses(b, b, [id]);
      var s := ExitInputs(p, snap, id);
      if w.fault(id) == AtObservation { return None; }
      if p.state == Closing { return Some(CloseWorking); }
      var decision := Exits.EvaluateExit(s);
      if decision.Failure? {
        Contain(id, w);
        return Some(PositionReview);
      }
      var d := decision.value;
      DecisionFlags(s);
      RaiseFindings(id, d, w);
      ghost var c := store.Contents();
      QuietCloses(b, c, [id]);
      if !d.shouldClose {
        var recorded := Record(s, w.fault(id));
        if !recorded { return None; }
        return Some(if d.trigger == Exits.Unmeasurable then PositionReview else PositionHeld);
      }
      if !mayWrite || d.suggestedLimit.None? {
        var recorded := Record(s, w.fault(id));
        if !recorded { return None; }
        return Some(if !mayWrite then ExitSignalled else ExitBlocked);
      }
      var client := w.closeClient(id, p.filled, d.trigger, d.suggestedLimit.value);
      r := SubmitClose(id, client, s, w, k);
      QuietCloses(b, c, []);
      ClosesChain(b, c, store.Contents(), [], [id]);
      assert [] + [id] == [id];
      StuckChain(b, c, store.Contents(), w, {id});
    }

    /** A halting incident on one position. */
    method RaiseIncident(id: Id, w: World)
      requires Valid() && id in store.ledger.positions
      modifies store
      ensures Valid() && store.Contents() == AfterIncident(old(store.Contents()), id)
      ensures ClosesOnceEach(old(store.Contents()), store.Contents(), [])
      ensures ClosesOnceEach(old(store.Contents()), store.Contents(), [id])
      ensures !SendsClose(old(store.Contents()), store.Contents())
      ensures KeepsStuck(old(store.Contents()), store.Contents(), w, {id})
    {
      hide Consistent, Follow, KeepsStuck;
      ghost var b := store.Contents();
      IncidentKeeps(b, id);
      IncidentSpares(b, id);
      store.OpenIncident(id);
      SparesStuck(b, store.Contents(), w, id);
    }

    /** An unreadable premium and a rule that cannot be judged are each an incident, and halt new risk. */
    method RaiseFindings(id: Id, d: Exits.ExitDecision, w: World)
      requires Valid() && id in store.ledger.positions && store.ledger.positions[id].state == Open
      modifies store, this`executionState, this`gatewayState
      ensures Valid() && Moves(old(store.Contents()), store.Contents())
      ensures !SendsClose(old(store.Contents()), store.Contents())
      ensures id in store.ledger.positions && store.ledger.intents == old(store.ledger.intents)
      ensures store.ledger.positions[id] == old(store.ledger.positions[id]).(state := store.ledger.positions[id].state)
      ensures store.ledger.positions[id].state in {Open, Incident}
      ensures gatewayState == if d.valueUnmeasurable || d.invalidationUnverifiable then NoNewRisk else old(gatewayState)
      ensures store.Contents() == FoundBy(old(store.Contents()), id, d)
      ensures KeepsStuck(old(store.Contents()), store.Contents(), w, {id})
    {
      hide Consistent, Follow, Moves, ClosesOnceEach, SendsClose, KeepsStuck;
      ghost var b := store.Contents();
      ClosesSelf(b, []);
      StuckSelf(b, w, {id});
      if d.valueUnmeasurable {
        RaiseIncident(id, w);
        HaltNewRisk();
      }
      ghost var c := store.Contents();
      if d.invalidationUnverifiable {
        RaiseIncident(id, w);
        HaltNewRisk();
        StuckChain(b, c, store.Contents(), w, {id});
      } else {
        ClosesSelf(c, []);
      }
      ClosesChain(b, c, store.Contents(), [], []);
      ClosesMove(b, store.Contents(), [] + []);
    }

    /** Persisting a decision evaluates every rule again, and raises where the audit does. */
    method Record(s: Exits.Inputs, fault: Stage) returns (recorded: bool)
      ensures recorded <==> fault != AtRecord && !Exits.Disagrees(s)
    {
      if fault == AtRecord { return false; }
      var rows := Exits.EvaluateTriggers(s);
      recorded := rows.Success?;
    }

    /** The close is persisted, then recorded, then sent; the answer never closes the position. */
    method SubmitClose(id: Id, client: ClientId, s: Exits.Inputs, w: World, k: nat) returns (r: Option<Action>)
      requires Valid() && id in store.ledger.positions && store.ledger.positions[id].state in {Open, Incident}
      modifies store, this`executionState, this`gatewayState
      ensures Valid() && ClosesOnceEach(old(store.Contents()), store.Contents(), [id])
      ensures SendsClose(old(store.Contents()), store.Contents()) <==>
                client !in old(store.ledger.intents) && w.fault(id) != AtRecord && !Exits.Disagrees(s) &&
                Passes(mayWrite, old(gatewayState), true, w.closeDesk(id))
      ensures r in {None, Some(ExitRefused), Some(CloseSubmitted)}
      ensures r == Some(CloseSubmitted) <==>
                (SendsClose(old(store.Contents()), store.Contents()) &&
                 !w.closeDesk(id).response.Lost? && w.fault(id) != AtResponse)
      ensures Failing(r) ==> IsLive(store.ledger, id)
      ensures r == Some(ExitRefused) || (Failing(r) && SendsClose(old(store.Contents()), store.Contents())) ==>
                CloseUnended(store.ledger, id)
      ensures Unfreezing(old(gatewayState), gatewayState)
      ensures Outcome(store.Contents(), gatewayState, r) ==
              ClosedBy(Powers(), old(store.Contents()), old(gatewayState), id, client, s, w, k)
      ensures KeepsStuck(old(store.Contents()), store.Contents(), w, {id})
    {
      hide Consistent, Follow, Moves, Exits.Disagrees, KeepsStuck, ClosesOnceEach, SendsClose, Spares, CloseUnended;
      hide IsLive, AnsweredBy;
      ghost var b := store.Contents();
      ClosesSelf(b, [id]);
      StuckSelf(b, w, {id});
      LiveHere(b.ledger, id);
      var order := store.PrepareClose(id, client);
      if order.None? { return None; }
      PreparedClose(b, id, client, w);
      PreparedUnended(b, id, client);
      ghost var c := store.Contents();
      var recorded := Record(s, w.fault(id));
      if !recorded { return None; }
      var answer := Submit(mayWrite, gatewayState, true, w.closeDesk(id));
      if answer == Failure(Guarded) {
        Responded(c, order.value, id, Ambiguous, false, w);
        StillUnended(c, order.value, id, w.now);
        store.RecordSubmission(order.value, Ambiguous, false, w.now);
        AfterTheClose(b, c, store.Contents(), id, w);
        return Some(ExitRefused);
      }
      store.Note(CloseSent(id, client));
      ghost var d := store.Contents();
      if answer.Failure? {
        Responded(d, order.value, id, Ambiguous, false, w);
        StillUnended(d, order.value, id, w.now);
        store.RecordSubmission(order.value, Ambiguous, false, w.now);
        AfterTheClose(b, d, store.Contents(), id, w);
        return Some(ExitRefused);
      }
      if w.fault(id) == AtResponse { return None; }
      Answered(order.value, id, answer.value, w, k);
      AfterTheClose(b, d, store.Contents(), id, w);
      r := Some(CloseSubmitted);
    }

    /** After the broker answered: persist what it said, then ask it what is true. */
    method Answered(order: OrderId, id: Id, answer: Submission, w: World, k: nat)
      requires Valid() && Owns(store.ledger, id, order)
      modifies store, this`executionState, this`gatewayState
      ensures Valid() && ClosesOnceEach(old(store.Contents()), store.Contents(), [])
      ensures !SendsClose(old(store.Contents()), store.Contents())
      ensures Unfreezing(old(gatewayState), gatewayState)
      ensures forall action :: Outcome(store.Contents(), gatewayState, Some(action)) ==
                AnsweredBy(Powers(), old(store.Contents()), old(gatewayState), order, answer, w, k, action)
      ensures KeepsStuck(old(store.Contents()), store.Contents(), w, {id})
    {
      hide Consistent, Follow, Moves, KeepsStuck, ClosesOnceEach, SendsClose, Looked, CleanLook;
      ghost var b := store.Contents();
      var state := if answer.ambiguous then Ambiguous else answer.status;
      Responded(b, order, id, state, answer.hasId, w);
      store.RecordSubmission(order, state, answer.hasId, w.now);
      ghost var c := store.Contents();
      var report := Reconcile(w, k);
      QuietCloses(c, store.Contents(), []);
      ClosesChain(b, c, store.Contents(), [], []);
      ghost var none: seq<Id> := [];
      assert none + none == none;
      StuckWider(c, store.Contents(), w, {id});
      StuckChain(b, c, store.Contents(), w, {id});
    }

    /** An exit that fired and did not go out, or a failure: durable, and new risk halts. */
    method Contain(id: Id, w: World)
      requires Valid() && id in store.ledger.positions
      modifies store, this`executionState, this`gatewayState
      ensures Valid() && store.Contents() == AfterIncident(old(store.Contents()), id)
      ensures gatewayState == executionState == NoNewRisk
      ensures ClosesOnceEach(old(store.Contents()), store.Contents(), [])
      ensures ClosesOnceEach(old(store.Contents()), store.Contents(), [id])
      ensures !SendsClose(old(store.Contents()), store.Contents())
      ensures Unfreezing(old(gatewayState), gatewayState)
      ensures KeepsStuck(old(store.Contents()), store.Contents(), w, {id})
    {
      hide Consistent, Follow, KeepsStuck, ClosesOnceEach, SendsClose;
      RaiseIncident(id, w);
      HaltNewRisk();
    }

    /** The same, seen from before the position was managed. */
    method ContainFailed(ghost b: Book, id: Id, w: World)
      requires Valid() && IsLive(store.ledger, id)
      requires ClosesOnceEach(b, store.Contents(), [id]) && KeepsStuck(b, store.Contents(), w, {id})
      modifies store, this`executionState, this`gatewayState
      ensures Valid() && store.Contents() == AfterIncident(old(store.Contents()), id) && InIncident(store.ledger, id)
      ensures CloseUnended(old(store.ledger), id) ==> In(store.ledger, id, CloseAdrift)
      ensures gatewayState == executionState == NoNewRisk
      ensures ClosesOnceEach(b, store.Contents(), [id]) && KeepsStuck(b, store.Contents(), w, {id})
      ensures SendsClose(b, store.Contents()) <==> SendsClose(b, old(store.Contents()))
    {
      hide Consistent, Follow, KeepsStuck, ClosesOnceEach, SendsClose, InIncident, In, CloseUnended;
      ghost var c := store.Contents();
      IncidentHere(c, id);
      Contain(id, w);
      AfterTheClose(b, c, store.Contents(), id, w);
    }

    /** A position with exposure: managed, and contained where that failed. */
    method ManageValuable(id: Id, snap: Snapshot, w: World, k: nat) returns (m: Managed)
      requires Valid() && id in store.ledger.positions && store.ledger.positions[id].state in {Open, Closing}
      modifies store, this`executionState, this`gatewayState
      ensures Valid() && ClosesOnceEach(old(store.Contents()), store.Contents(), [id]) && m.id == id
      ensures SendsClose(old(store.Contents()), store.Contents()) <==>
                CloseGoesOut(old(store.ledger), old(gatewayState), mayWrite, w, snap, id)
      ensures m.valued <==> m.action in MANAGING
      ensures m.action in MANAGING + {ManagementFailed}
      ensures m.action == CloseSubmitted <==> CloseAnswered(old(store.ledger), old(gatewayState), mayWrite, w, snap, id)
      ensures ExitLost(old(store.ledger), old(gatewayState), mayWrite, w, snap, id) ==> m.action in FAILING
      ensures m.action in FAILING ==> InIncident(store.ledger, id) && gatewayState == executionState == NoNewRisk
      ensures m.action == ExitRefused ||
              (m.action in FAILING && SendsClose(old(store.Contents()), store.Contents())) ==>
                In(store.ledger, id, CloseAdrift)
      ensures old(store.ledger).positions[id].debit.Some? && w.fault(id) == AtObservation ==>
                m.action == ManagementFailed && store.Contents() == AfterIncident(old(store.Contents()), id)
      ensures Waits(old(store.ledger), w, id) ==> store.Contents() == old(store.Contents())
      ensures Unfreezing(old(gatewayState), gatewayState)
      ensures Outcome(store.Contents(), gatewayState, Some(m.action)) ==
              TurnBy(Powers(), old(store.Contents()), old(gatewayState), id, snap, w, k)
      ensures KeepsStuck(old(store.Contents()), store.Contents(), w, {id})
    {
      hide Consistent, Follow, CloseGoesOut, ClosesOnceEach, SendsClose, CloseClient, KeepsStuck, AfterIncident;
      hide ExitLost, CloseAnswered, InIncident, CloseUnended, IsLive, In, FiringTrigger, Waits, ManagedBy;
      ghost var b := store.Contents();
      var outcome := ManageOpenPosition(id, snap, w, k);
      m := if outcome.Some? then Managed(id, outcome.value, true) else Managed(id, ManagementFailed, false);
      if Failing(outcome) {
        LiveIsARow(store.ledger, id);
        ContainFailed(b, id, w);
      }
    }

    /** Whatever happens to one position is contained to it. */
    method ManageOne(id: Id, snap: Snapshot, w: World, k: nat) returns (m: Managed)
      requires Valid() && id in store.ledger.positions
      modifies store, this`executionState, this`gatewayState
      ensures Valid() && ClosesOnceEach(old(store.Contents()), store.Contents(), [id]) && m.id == id
      ensures SendsClose(old(store.Contents()), store.Contents()) <==>
                CloseGoesOut(old(store.ledger), old(gatewayState), mayWrite, w, snap, id)
      ensures m.action == ResolvedMidCycle <==> !Valuable(old(store.ledger), id)
      ensures m.valued <==> m.action in MANAGING
      ensures m.action in MANAGING + {ManagementFailed, ResolvedMidCycle}
      ensures m.action == CloseSubmitted <==> CloseAnswered(old(store.ledger), old(gatewayState), mayWrite, w, snap, id)
      ensures ExitLost(old(store.ledger), old(gatewayState), mayWrite, w, snap, id) ==> m.action in FAILING
      ensures m.action in FAILING ==> InIncident(store.ledger, id) && gatewayState == executionState == NoNewRisk
      ensures m.action == ExitRefused ||
              (m.action in FAILING && SendsClose(old(store.Contents()), store.Contents())) ==>
                In(store.ledger, id, CloseAdrift)
      ensures Valuable(old(store.ledger), id) && old(store.ledger).positions[id].debit.Some? &&
              w.fault(id) == AtObservation ==>
                m.action == ManagementFailed && store.Contents() == AfterIncident(old(store.Contents()), id)
      ensures Unfreezing(old(gatewayState), gatewayState) && KeepsStuck(old(store.Contents()), store.Contents(), w, {})
      ensures Outcome(store.Contents(), gatewayState, Some(m.action)) ==
              TurnBy(Powers(), old(store.Contents()), old(gatewayState), id, snap, w, k)
    {
      hide Consistent, Follow, CloseGoesOut, ClosesOnceEach, SendsClose, CloseClient, KeepsStuck, AfterIncident;
      hide ExitLost, CloseAnswered, InIncident, In, Waits, ManagedBy;
      ghost var b := store.Contents();
      ClosesSelf(b, [id]);
      StuckSelf(b, w, {});
      if store.ledger.positions[id].state !in {Open, Closing} {
        NeedsOpen(b.ledger, gatewayState, mayWrite, w, snap, id);
        return Managed(id, ResolvedMidCycle, false);
      }
      m := ManageValuable(id, snap, w, k);
      if !Waits(b.ledger, w, id) { NotStuckHere(b, store.Contents(), w, id); }
    }

    /** One more position in its turn. */
    method TakeTurn(id: Id, snap: Snapshot, w: World,
                    ghost ids: seq<Id>, ghost turns: seq<Turn>, ghost b: Book, ghost state: ExecutionState, k: nat)
      returns (m: Managed, ghost more: seq<Turn>)
      requires Valid() && id in store.ledger.positions && k == |ids| + 1
      requires InTurn(turns, ids, snap, w, Powers(), b, state, store.Contents(), gatewayState)
      modifies store, this`executionState, this`gatewayState
      ensures Valid() && ClosesOnceEach(old(store.Contents()), store.Contents(), [id])
      ensures m.id == id && (m.valued <==> m.action in MANAGING)
      ensures InTurn(more, ids + [id], snap, w, Powers(), b, state, store.Contents(), gatewayState)
      ensures |turns| == |ids| && |more| == |ids| + 1 && more[..|ids|] == turns && more[|ids|].action == m.action
      ensures KeepsStuck(old(store.Contents()), store.Contents(), w, {})
    {
      hide Consistent, Follow, ClosesOnceEach, SendsClose, CloseGoesOut, Moves, InTurn, TookTurn, KeepsStuck;
      hide ExitLost, CloseAnswered, InIncident, In, AfterIncident, TurnBy;
      ghost var c, met := store.Contents(), gatewayState;
      m := ManageOne(id, snap, w, k);
      ghost var t := Turn(c, met, store.Contents(), gatewayState, m.action);
      OneTurn(t, id, snap, w, Powers(), k);
      OneMoreTurn(turns, ids, snap, w, Powers(), b, state, c, met, t, id);
      more := turns + [t];
    }

    /** The valuable positions in the given order, each on what the last one left. */
    method Act(ids: seq<Id>, snap: Option<Snapshot>, open: bool, failed: bool, w: World)
      returns (results: seq<Managed>, valued: nat, ghost turns: seq<Turn>)
      requires Valid() && Distinct(ids) && Has(store.ledger, ids)
      modifies store, this`executionState, this`gatewayState
      ensures Valid() && ClosesOnceEach(old(store.Contents()), store.Contents(), ids)
      ensures Ids(results) == ids && valued == Valued(results) && Managing(results)
      ensures snap.None? || !open ==>
                store.Contents() == old(store.Contents()) && gatewayState == old(gatewayState) &&
                TellsUnvalued(results, ids, if failed then ObserveFailed else MarketClosed)
      ensures snap.Some? && open ==>
                InTurn(turns, ids, snap.value, w, Powers(), old(store.Contents()), old(gatewayState),
                       store.Contents(), gatewayState) &&
                Tells(results, ids, turns)
      ensures ids == [] ==>
                store.Contents() == old(store.Contents()) && gatewayState == old(gatewayState) && turns == []
      ensures KeepsStuck(old(store.Contents()), store.Contents(), w, {})
    {
      hide Consistent, Follow, ClosesOnceEach, SendsClose, CloseGoesOut, Ids, Valued, Moves, InTurn, TookTurn;
      hide KeepsStuck, Tells, TellsUnvalued;
      results, valued, turns := [], 0, [];
      ghost var b := store.Contents();
      ghost var state := gatewayState;
      ClosesSelf(b, []);
      StuckSelf(b, w, {});
      NoResults();
      NothingTold(if failed then ObserveFailed else MarketClosed);
      if snap.Some? { NoTurns(snap.value, w, Powers(), b, state); }
      for k := 0 to |ids|
        invariant Valid() && Has(store.ledger, ids) && ClosesOnceEach(b, store.Contents(), ids[..k])
        invariant Ids(results) == ids[..k] && valued == Valued(results) && Managing(results)
        invariant snap.None? || !open || k == 0 ==> store.Contents() == b && gatewayState == state && turns == []
        invariant snap.None? || !open ==>
                    TellsUnvalued(results, ids[..k], if failed then ObserveFailed else MarketClosed)
        invariant snap.Some? && open ==>
                    InTurn(turns, ids[..k], snap.value, w, Powers(), b, state, store.Contents(), gatewayState) &&
                    Tells(results, ids[..k], turns)
        invariant KeepsStuck(b, store.Contents(), w, {})
      {
        var id := ids[k];
        assert ids[..k + 1] == ids[..k] + [id];
        DistinctFront(ids, k);
        ghost var c, before := store.Contents(), turns;
        var m;
        if snap.None? || !open {
          m := Managed(id, if failed then ObserveFailed else MarketClosed, false);
          ClosesSelf(c, [id]);
          OneUnvalued(results, ids[..k], m);
        } else {
          m, turns := TakeTurn(id, snap.value, w, ids[..k], turns, b, state, k + 1);
          StuckChain(b, c, store.Contents(), w, {});
          OneTold(results, ids[..k], before, turns, m);
          if m.valued { valued := valued + 1; }
        }
        ClosesChain(b, c, store.Contents(), ids[..k], [id]);
        HasKept(c, store.Contents(), [id], ids);
        OneMore(results, m);
        results := results + [m];
      }
      assert ids[..|ids|] == ids;
    }

    /** One observation for the whole cycle, where there is something to value and none was passed in. */
    method ObserveFor(ids: seq<Id>, given: Option<Snapshot>, givenOpen: bool, w: World)
      returns (snap: Option<Snapshot>, open: bool, failed: bool)
      ensures ids != [] ==> (snap.Some? && open <==> Observed(given, givenOpen, w).Some?)
      ensures ids != [] && Observed(given, givenOpen, w).Some? ==> snap == Observed(given, givenOpen, w)
      ensures failed <==> ids != [] && given == None && w.observed == None
    {
      snap, open, failed := given, givenOpen, false;
      if ids != [] && snap.None? {
        if w.observed.None? { failed := true; } else { snap, open := w.observed, w.marketOpen; }
      }
    }

    /** The closes run most urgent first; with nothing to value them on, the stored order stays. */
    method ByUrgency(ids: seq<Id>, l: Ledger, snap: Option<Snapshot>, open: bool, w: World) returns (sorted: seq<Id>)
      ensures multiset(sorted) == multiset(ids)
      ensures snap.Some? && open ==> Sorted(sorted, UrgencyKey(l, snap.value, w))
    {
      sorted := ids;
      if snap.Some? && open {
        var key := UrgencyKey(l, snap.value, w);
        SortPermutes(ids, key);
        SortSorts(ids, key);
        sorted := SortBy(ids, key);
      }
    }

    /**
      Reconcile once, value every position and act on each in urgency order. `start` is the
      book the set is read from and `acted` the order in which positions are taken.
    */
    method ManagePositions(w: World, reconciled: bool, given: Option<Snapshot>, givenOpen: bool)
      returns (cycle: Cycle, ghost start: Book, ghost acted: seq<Id>, ghost turns: seq<Turn>)
      requires Valid()
      modifies store, this`executionState, this`gatewayState
      ensures Valid() && start == Looked(hasReconciler && !reconciled, old(store.Contents()), w.looks(0))
      ensures ClosesOnceEach(start, store.Contents(), acted) && !SendsClose(old(store.Contents()), start)
      ensures OneEach(Owned(start.ledger, hasStore), cycle)
      ensures multiset(acted) == multiset(Select(Owned(start.ledger, hasStore), start.ledger, true))
      ensures TellsOthers(cycle.results, Owned(start.ledger, hasStore), start.ledger)
      ensures
        var state := GateAfter(hasReconciler && !reconciled, old(store.Contents()), w.looks(0), old(gatewayState));
        if Observed(given, givenOpen, w).Some? then
          InUrgencyOrder(acted, turns, Observed(given, givenOpen, w).value, w, Powers(), start, state,
                         store.Contents(), gatewayState) &&
          Tells(cycle.results, acted, turns)
        else
          store.Contents() == start && gatewayState == state &&
          TellsUnvalued(cycle.results, acted,
                        if given == None && w.observed == None then ObserveFailed else MarketClosed)
      ensures KeepsStuck(old(store.Contents()), store.Contents(), w, {})
    {
      hide Consistent, Follow, ClosesOnceEach, SendsClose, Ids, Valued, Moves, Select, Active, Urgency, SortBy, Sorted;
      hide InTurn, EachOnItsOwn, InUrgencyOrder, KeepsStuck, AfterLook, CleanLook, OneEach, UrgencyKey;
      hide Tells, TellsUnvalued, TellsOthers;
      ghost var b := store.Contents();
      NothingSent(b);
      StuckSelf(b, w, {});
      if !reconciled { var report := Reconcile(w, 0); }
      start := store.Contents();
      ghost var state := gatewayState;
      var l := store.ledger;
      var positions := ManagedPositions();
      var valuable := Select(positions, l, true);
      var snap, open, failed := ObserveFor(valuable, given, givenOpen, w);
      valuable := ByUrgency(valuable, l, snap, open, w);
      acted := valuable;
      SelectSplits(positions, l);
      SelectDistinct(positions, l, valuable);
      SelectHas(positions, l, valuable);
      var results, valued;
      results, valued, turns := Act(valuable, snap, open, failed, w);
      StuckChain(b, start, store.Contents(), w, {});
      var others := Others(positions, l);
      cycle := Assemble(positions, results, others, valued, l);
      OthersStill(others, cycle.results, positions, l);
      if Observed(given, givenOpen, w).Some? {
        if acted == [] { NothingToAct(acted, turns, Observed(given, givenOpen, w).value, w, Powers(), start, state); }
        UrgencyKept(acted, turns, Observed(given, givenOpen, w).value, w, Powers(),
                    start, state, store.Contents(), gatewayState);
        ToldStill(results, cycle.results, acted, turns);
      } else {
        UnvaluedStill(results, cycle.results, acted,
                      if given == None && w.observed == None then ObserveFailed else MarketClosed);
      }
    }

    /** The live rows in recorded order; none for an agent without a store. */
    method ManagedPositions() returns (ids: seq<Id>)
      requires Valid()
      ensures ids == Owned(store.ledger, hasStore) && Distinct(ids) && Has(store.ledger, ids)
    {
      hide Follow, Tracks;
      ids := [];
      if hasStore {
        ids := store.ActivePositions(false);
        ActiveDistinct(store.ledger.ids, store.ledger, false);
      }
    }

    /** The first row with exposure to manage. */
    method ActivePosition() returns (found: bool)
      requires Valid()
      ensures found <==> exists id :: id in Owned(store.ledger, hasStore) && Valuable(store.ledger, id)
    {
      var ids := ManagedPositions();
      found := false;
      for k := 0 to |ids|
        invariant !found
        invariant forall j :: 0 <= j < k ==> !Valuable(store.ledger, ids[j])
      {
        if store.ledger.positions[ids[k]].state in {Open, Closing} { return true; }
      }
    }

    /** Cancel what is past its deadline, reinstate late fills, and ask the broker again. */
    method EnforceDeadlines(w: World, k: nat) returns (acted: bool)
      requires Valid()
      modifies store, this`executionState, this`gatewayState, this`lastAsked
      ensures Valid() && SlotStep(old(store.Contents()), store.Contents())
      ensures !SendsOpening(old(store.Contents()), store.Contents())
      ensures acted <==> hasDeadlines && mayWrite && exists id :: Due(old(store.ledger), id, w.now)
      ensures !acted ==> store.Contents() == old(store.Contents()) && gatewayState == old(gatewayState)
      ensures acted ==> CancelReopens(old(store.Contents()), store.ledger, hasReconciler, w, k)
      ensures acted ==> EnforcedThenLooked(Powers(), old(store.Contents()), old(gatewayState), w, k,
                                           Outcome(store.Contents(), gatewayState, Some(DeadlineAction)), lastAsked)
      ensures Loose(store.events) == Loose(old(store.events))
      ensures KeepsStuck(old(store.Contents()), store.Contents(), w, {})
    {
      hide Consistent, Follow, Late, Overdue, Uncancelled, Enforced, SlotStep, SendsOpening, Loose, KeepsStuck, Looked;
      hide CancelReopens, AsksFor, ListsManaged, CleanLook, EnforcedThenLooked, DeadlinesDid;
      ghost var b := store.Contents();
      ghost var gate := gatewayState;
      NoStep(b);
      StuckSelf(b, w, {});
      if !hasDeadlines || !mayWrite { return false; }
      var halts, canceled;
      ghost var ids;
      acted, halts, canceled, ids := enforcer.Enforce(w.now, w.cancel);
      lastAsked := canceled;
      ghost var c := store.Contents();
      EnforcedStep(b, c, ids, w.now, w.cancel);
      EnforcedStuck(b, c, ids, w);
      DueAmong(b, ids, w.now);
      if halts { HaltNewRisk(); }
      if !acted {
        NoHaltAlone(b, ids, w.now, w.cancel, halts, acted);
        return false;
      }
      var report := Reconcile(w, k);
      CancelReopened(b, c, ids, hasReconciler, w, k);
      DeadlinesAre(Powers(), b, gate, w, k, Outcome(store.Contents(), gatewayState, Some(DeadlineAction)),
                   canceled, c, ids);
      MovesStep(c, store.Contents());
      MovesTight(c, store.Contents());
      StepChain(b, c, store.Contents());
      StuckChain(b, c, store.Contents(), w, {});
    }

    /** Data quality governs the halt state too. */
    method HaltOn(usable: bool)
      modifies this`executionState, this`gatewayState
      ensures usable ==> executionState == old(executionState) && gatewayState == old(gatewayState)
      ensures !usable ==> executionState == gatewayState == NoNewRisk
    {
      if !usable {
        executionState := NoNewRisk;
        gatewayState := NoNewRisk;
      }
    }

    /** A new entry: persisted, then sent, then reconciled. */
    method ConsiderEntry(w: World, k: nat) returns (action: Action)
      requires Valid() && (hasStore ==> LiveIds(store.ledger) == {})
      modifies store, this`executionState, this`gatewayState, this`decisionRow
      ensures Valid() && SlotStep(old(store.Contents()), store.Contents())
      ensures decisionRow == (old(decisionRow) || records)
      ensures SendsOpening(old(store.Contents()), store.Contents()) <==>
                action == EntryAmbiguous || action == EntrySubmitted
      ensures SendsOpening(old(store.Contents()), store.Contents()) <==>
                OpeningGoesOut(old(store.ledger), old(gatewayState), Powers(), hasStore && decisionRow, w)
      ensures Outcome(store.Contents(), gatewayState, Some(action)) ==
              EntryBy(Powers(), hasStore && decisionRow, old(store.Contents()), old(gatewayState), w, k)
      ensures hasStore && decisionRow ==> Loose(store.events) == Loose(old(store.events))
      ensures SendsOpening(old(store.Contents()), store.Contents()) && !(hasStore && decisionRow) ==>
                Persisted(w.entry.value) in old(store.events) || Loose(store.events)
      ensures SendsOpening(old(store.Contents()), store.Contents()) && hasStore && decisionRow ==>
                LiveIds(store.ledger) <= {old(store.ledger.next)}
      ensures w.entry.Some? && action == EntryRefused && hasStore && decisionRow &&
              w.entry.value !in old(store.ledger.intents) ==>
                In(store.ledger, old(store.ledger.next), RefusedAt(w.now))
      ensures action in (if w.entry.None? then {NoTrade} else if !mayWrite then {TradeCandidate}
                         else {EntryRefused, EntryAmbiguous, EntrySubmitted})
      ensures KeepsStuck(old(store.Contents()), store.Contents(), w, {})
    {
      hide Consistent, Follow, Loose, SlotStep, SendsOpening, In, Moves, ClosesOnceEach, SendsClose, KeepsStuck;
      hide BareEntryBy, PersistedEntryBy;
      ghost var b := store.Contents();
      NoStep(b);
      StuckSelf(b, w, {});
      if records { decisionRow := true; }
      if w.entry.None? { return NoTrade; }
      if !mayWrite { return TradeCandidate; }
      var client := w.entry.value;
      if !hasStore || !decisionRow {
        action := SendUnpersisted(client, w, k);
        return;
      }
      var id := store.PrepareEntry(client);
      if id.None? {
        RefusedTwice(Powers(), b, gatewayState, client, w, k);
        return EntryRefused;
      }
      OpenSentKeeps(b, client);
      action := SendPersisted(b, id.value, client, w, k);
    }

    /** Refused before anything was sent: the order's answer is recorded and the row given up. */
    method GiveUp(id: Id, client: ClientId, w: World)
      requires Valid() && RowOk(store.ledger, id) && store.ledger.positions[id] == Position(Pending, id, None, 0, None)
      requires store.ledger.orders[id] == NotSent(id, client, Entry)
      modifies store
      ensures Valid() && Moves(old(store.Contents()), store.Contents()) && In(store.ledger, id, RefusedAt(w.now))
      ensures store.Contents() == GivenUp(old(store.Contents()), id, w.now)
      ensures KeepsStuck(old(store.Contents()), store.Contents(), w, {id})
    {
      hide Consistent, Follow, Moves, KeepsStuck, ClosesOnceEach, SendsClose;
      ghost var c := store.Contents();
      Responded(c, id, id, Ambiguous, false, w);
      store.RecordSubmission(id, Ambiguous, false, w.now);
      ghost var d := store.Contents();
      ClosesMove(c, d, []);
      EntryKeeps(d, id, Rejected, 0, None);
      EntrySpares(d, id, Rejected, 0, None);
      store.ApplyEntryOutcome(id, Rejected, 0, None);
      SparesStuck(d, store.Contents(), w, id);
      MovesChain(c, d, store.Contents());
      StuckChain(c, d, store.Contents(), w, {id});
      RowOf(store.Contents(), id);
    }

    /** The intent, its order and a PENDING row are committed; now the order is sent. */
    method SendPersisted(ghost b: Book, id: Id, client: ClientId, w: World, k: nat) returns (action: Action)
      requires Consistent(b) && LiveIds(b.ledger) == {} && client !in b.ledger.intents && id == b.ledger.next
      requires Valid() && store.Contents() == AfterPrepareEntry(b, client)
      modifies store, this`executionState, this`gatewayState
      ensures Valid() && SlotStep(b, store.Contents()) && Loose(store.events) == Loose(b.events)
      ensures LiveIds(store.ledger) <= {id}
      ensures SendsOpening(b, store.Contents()) <==> action == EntryAmbiguous || action == EntrySubmitted
      ensures SendsOpening(b, store.Contents()) <==> Passes(mayWrite, old(gatewayState), false, w.entryDesk)
      ensures Outcome(store.Contents(), gatewayState, Some(action)) ==
              PersistedEntryBy(Powers(), b, old(gatewayState), client, w, k)
      ensures action == EntryRefused ==> In(store.ledger, id, RefusedAt(w.now))
      ensures action in {EntryRefused, EntryAmbiguous, EntrySubmitted}
      ensures KeepsStuck(b, store.Contents(), w, {})
    {
      hide Consistent, Follow, Loose, Moves, SlotStep, SendsOpening, ClosesOnceEach, SendsClose, LiveIds, In;
      hide KeepsStuck, ThenLooked, AnsweredBy, GivenUp;
      OpenSentKeeps(b, client);
      PreparedRow(b, client);
      RowOf(store.Contents(), id);
      ghost var c := store.Contents();
      var answer := Submit(mayWrite, gatewayState, false, w.entryDesk);
      if answer == Failure(Guarded) {
        GiveUp(id, client, w);
        PreparedThen(b, client, [], c, store.Contents());
        PreparedStuck(b, client, [], c, store.Contents(), w);
        return EntryRefused;
      }
      store.Note(OpenSent(client));
      ghost var d := store.Contents();
      if answer.Failure? {
        action := EntryAmbiguous;
        UnknownOutcome(id, w, k);
      } else {
        action := EntrySubmitted;
        Answered(id, id, answer.value, w, k);
        ClosesMove(d, store.Contents(), []);
      }
      PreparedThen(b, client, [OpenSent(client)], d, store.Contents());
      PreparedStuck(b, client, [OpenSent(client)], d, store.Contents(), w);
    }

    /** Sent, with no answer: responsibility is kept, new risk halts, and the broker is asked. */
    method UnknownOutcome(id: Id, w: World, k: nat)
      requires Valid() && id in store.ledger.positions && Owns(store.ledger, id, id)
      modifies store, this`executionState, this`gatewayState
      ensures Valid() && Moves(old(store.Contents()), store.Contents())
      ensures Outcome(store.Contents(), gatewayState, Some(EntryAmbiguous)) ==
              ThenLooked(Powers(), AfterIncident(AfterResponse(old(store.Contents()), id, Ambiguous, false, w.now), id),
                         NoNewRisk, w.looks(k), EntryAmbiguous)
      ensures KeepsStuck(old(store.Contents()), store.Contents(), w, {id})
    {
      hide Consistent, Follow, Moves, KeepsStuck, ClosesOnceEach, SendsClose, AfterIncident, Looked, CleanLook;
      ghost var d := store.Contents();
      Responded(d, id, id, Ambiguous, false, w);
      store.RecordSubmission(id, Ambiguous, false, w.now);
      ghost var e := store.Contents();
      ClosesMove(d, e, []);
      Contain(id, w);
      ghost var f := store.Contents();
      ClosesMove(e, f, []);
      MovesChain(d, e, f);
      StuckChain(d, e, f, w, {id});
      var report := Reconcile(w, k);
      MovesChain(d, f, store.Contents());
      StuckWider(f, store.Contents(), w, {id});
      StuckChain(d, f, store.Contents(), w, {id});
    }

    /** Without a store, or without the decision's row, nothing is persisted before the order is sent. */
    method SendUnpersisted(client: ClientId, w: World, k: nat) returns (action: Action)
      requires Valid()
      modifies store, this`executionState, this`gatewayState
      ensures Valid() && SlotStep(old(store.Contents()), store.Contents())
      ensures SendsOpening(old(store.Contents()), store.Contents()) <==>
                action == EntryAmbiguous || action == EntrySubmitted
      ensures SendsOpening(old(store.Contents()), store.Contents()) <==>
                Passes(mayWrite, old(gatewayState), false, w.entryDesk)
      ensures Outcome(store.Contents(), gatewayState, Some(action)) ==
              BareEntryBy(Powers(), old(store.Contents()), old(gatewayState), client, w, k)
      ensures SendsOpening(old(store.Contents()), store.Contents()) && Persisted(client) !in old(store.events) ==>
                Loose(store.events)
      ensures action in {EntryRefused, EntryAmbiguous, EntrySubmitted}
      ensures KeepsStuck(old(store.Contents()), store.Contents(), w, {})
    {
      hide Consistent, Follow, Loose, Moves, SlotStep, SendsOpening, KeepsStuck, SendsClose, Looked, CleanLook;
      ghost var b := store.Contents();
      NoStep(b);
      StuckSelf(b, w, {});
      var answer := Submit(mayWrite, gatewayState, false, w.entryDesk);
      if answer == Failure(Guarded) { return EntryRefused; }
      store.Note(OpenSent(client));
      ghost var c := store.Contents();
      BareSend(b, client);
      BareStuck(b, client, w);
      if answer.Failure? {
        action := EntryAmbiguous;
        HaltNewRisk();
      } else {
        action := EntrySubmitted;
      }
      var report := Reconcile(w, k);
      MovesStep(c, store.Contents());
      StepChain(b, c, store.Contents());
      MovesTight(c, store.Contents());
      StuckChain(b, c, store.Contents(), w, {});
    }

    method ManageAll(w: World) returns (action: Action)
      requires Valid() && w.observed.Some? && w.marketOpen
      modifies store, this`executionState, this`gatewayState, this`lastCycle
      ensures Valid() && SlotStep(old(store.Contents()), store.Contents())
      ensures !SendsOpening(old(store.Contents()), store.Contents()) && Loose(store.events) == Loose(old(store.events))
      ensures action in MANAGING + {PositionsManaged}
      ensures CycleDid(Powers(), old(store.Contents()), old(gatewayState), w,
                       Outcome(store.Contents(), gatewayState, Some(action)), lastCycle)
      ensures KeepsStuck(old(store.Contents()), store.Contents(), w, {})
    {
      hide Consistent, Follow, Loose, SlotStep, SendsOpening, Moves, ClosesOnceEach, SendsClose, OneEach, Select;
      hide InUrgencyOrder, KeepsStuck, Tells, TellsOthers, TellsUnvalued, AloneCloses, Answers, Cycled, ResultFor;
      hide AfterLook, CleanLook;
      ghost var b := store.Contents();
      ghost var gate := gatewayState;
      var cycle;
      ghost var start, acted, turns;
      cycle, start, acted, turns := ManagePositions(w, true, w.observed, true);
      lastCycle := Some(cycle);
      ClosesMove(b, store.Contents(), acted);
      MovesStep(b, store.Contents());
      MovesTight(b, store.Contents());
      ManagingOf(Owned(start.ledger, hasStore), cycle);
      ResultManages(cycle.results);
      action := ResultFor(cycle.results);
      ResultAnswers(cycle.results);
      CycleIs(Powers(), b, gate, w, Outcome(store.Contents(), gatewayState, Some(action)), cycle.results, acted, turns);
    }

    /** The second half of a tick: manage what is owned, or consider one entry. */
    method ManageOrEnter(w: World, report: Option<bool>) returns (action: Action)
      requires Valid() && w.observed.Some? && w.marketOpen
      modifies store, this`executionState, this`gatewayState, this`decisionRow, this`lastCycle
      ensures Valid() && SlotStep(old(store.Contents()), store.Contents())
      ensures SendsOpening(old(store.Contents()), store.Contents()) <==>
                action == EntryAmbiguous || action == EntrySubmitted
      ensures SendsOpening(old(store.Contents()), store.Contents()) ==>
                EntryAllowed(w, mayWrite) && report != Some(false)
      ensures SendsOpening(old(store.Contents()), store.Contents()) <==>
                EntersMarket(Powers(), hasStore && (old(decisionRow) || records), old(store.Contents()),
                             old(gatewayState), report == Some(false), w)
      ensures OpenMarketDid(Powers(), hasStore && (old(decisionRow) || records), old(store.Contents()),
                            old(gatewayState), report == Some(false), w,
                            Outcome(store.Contents(), gatewayState, Some(action)), lastCycle)
      ensures SendsOpening(old(store.Contents()), store.Contents()) && hasStore ==> LiveIds(old(store.ledger)) == {}
      ensures SendsOpening(old(store.Contents()), store.Contents()) && hasStore && decisionRow ==>
                |LiveIds(store.ledger)| <= 1
      ensures hasStore && (old(decisionRow) || records) ==> Loose(store.events) == Loose(old(store.events))
      ensures decisionRow ==> old(decisionRow) || records
      ensures old(decisionRow) ==> decisionRow
      ensures action in OpenMarketAnswers(hasStore, mayWrite, old(store.Contents()), report == Some(false), w)
      ensures KeepsStuck(old(store.Contents()), store.Contents(), w, {})
    {
      hide Consistent, Follow, Loose, SlotStep, SendsOpening, In, Moves, ClosesOnceEach, SendsClose, OneEach, Select;
      hide LiveIds, KeepsStuck, CycleDid, EntryBy;
      ghost var b := store.Contents();
      NoStep(b);
      StuckSelf(b, w, {});
      var active := ActivePosition();
      if active {
        action := ManageAll(w);
        return;
      }
      var positions := ManagedPositions();
      if positions != [] { return EntryInFlight; }
      if report == Some(false) { return EntryHalted; }
      if !w.windowOpen { return OutsideEntryWindow; }
      HaltOn(w.observed.value.usable);
      if !w.observed.value.usable { return EntryHalted; }
      if hasStore { NoneLive(b); }
      action := ConsiderEntry(w, 1);
      AtMostOne(store.ledger, b.ledger.next);
    }

    /** Nothing is due: observe, and go on where there is a market. */
    method Decide(w: World, report: Option<bool>) returns (action: Action)
      requires Valid()
      modifies store, this`executionState, this`gatewayState, this`decisionRow, this`lastCycle
      ensures Valid() && SlotStep(old(store.Contents()), store.Contents())
      ensures SendsOpening(old(store.Contents()), store.Contents()) <==>
                action == EntryAmbiguous || action == EntrySubmitted
      ensures SendsOpening(old(store.Contents()), store.Contents()) ==> EntryAllowed(w, mayWrite)
      ensures SendsOpening(old(store.Contents()), store.Contents()) <==>
                DecisionOpens(Powers(), hasStore && (old(decisionRow) || records), old(store.Contents()),
                              old(gatewayState), report == Some(false), w)
      ensures DecisionDid(Powers(), hasStore && (old(decisionRow) || records), old(store.Contents()),
                          old(gatewayState), report == Some(false), w,
                          Outcome(store.Contents(), gatewayState, Some(action)), lastCycle)
      ensures SendsOpening(old(store.Contents()), store.Contents()) && hasStore ==> LiveIds(old(store.ledger)) == {}
      ensures SendsOpening(old(store.Contents()), store.Contents()) && hasStore && decisionRow ==>
                |LiveIds(store.ledger)| <= 1
      ensures hasStore && (old(decisionRow) || records) ==> Loose(store.events) == Loose(old(store.events))
      ensures old(decisionRow) ==> decisionRow
      ensures decisionRow ==> old(decisionRow) || records
      ensures action != DeadlineAction
      ensures action in DecisionAnswers(hasStore, mayWrite, old(store.Contents()), report == Some(false), w)
      ensures KeepsStuck(old(store.Contents()), store.Contents(), w, {})
    {
      hide Consistent, Follow, Loose, SlotStep, SendsOpening, In, Moves, ClosesOnceEach, SendsClose, Select, OneEach;
      hide LiveIds, KeepsStuck, EntryAllowed, OpenMarketDid, EntersMarket, OpenMarketAnswers;
      ghost var b := store.Contents();
      NoStep(b);
      StuckSelf(b, w, {});
      if w.observed.None? { return ObserveFailed; }
      if !w.marketOpen { return MarketClosed; }
      action := ManageOrEnter(w, report);
      NeverDeadline(hasStore, mayWrite, b, report == Some(false), w);
    }

    /** One whole cycle; exits come before entries. */
    method Tick(w: World) returns (action: Action)
      requires Valid()
      modifies store, this
      ensures Valid() && SlotStep(old(store.Contents()), store.Contents())
      ensures history == old(history) + [action]
      ensures var b := Looked(hasReconciler, old(store.Contents()), w.looks(0));
        && action in TickAnswers(hasDeadlines && mayWrite, hasStore, mayWrite, b,
                                 hasReconciler && !CleanLook(old(store.Contents()), w.looks(0)), w)
        && (action == DeadlineAction <==> hasDeadlines && mayWrite && exists id :: Due(b.ledger, id, w.now))
        && (action == DeadlineAction ==> CancelReopens(b, store.ledger, hasReconciler, w, 1))
        && (SendsOpening(old(store.Contents()), store.Contents()) && hasStore ==> LiveIds(b.ledger) == {})
      ensures SendsOpening(old(store.Contents()), store.Contents()) <==>
                action == EntryAmbiguous || action == EntrySubmitted
      ensures SendsOpening(old(store.Contents()), store.Contents()) ==> EntryAllowed(w, mayWrite)
      ensures SendsOpening(old(store.Contents()), store.Contents()) <==>
                TickOpens(Powers(), hasStore && (old(decisionRow) || records), old(store.Contents()),
                          old(gatewayState), w)
      ensures TickDid(Powers(), hasStore && (old(decisionRow) || records), old(store.Contents()), old(gatewayState), w,
                      Outcome(store.Contents(), gatewayState, Some(action)), lastCycle, lastAsked)
      ensures SendsOpening(old(store.Contents()), store.Contents()) && hasStore && decisionRow ==>
                |LiveIds(store.ledger)| <= 1
      ensures hasStore && (old(decisionRow) || records) ==> Loose(store.events) == Loose(old(store.events))
      ensures old(decisionRow) ==> decisionRow
      ensures KeepsStuck(old(store.Contents()), store.Contents(), w, {})
    {
      hide Consistent, Follow, Loose, SlotStep, SendsOpening, In, Moves, ClosesOnceEach, SendsClose, Due, Select;
      hide OneEach, LiveIds;
      hide KeepsStuck, AfterLook, CleanLook, Looked, OpenMarketAnswers, EntryAllowed, Owned, CancelReopens;
      hide DecisionDid, DecisionOpens, EnforcedThenLooked, DecisionAnswers;
      ghost var b := store.Contents();
      var report := Reconcile(w, 0);
      ghost var c := store.Contents();
      MovesStep(b, c);
      MovesTight(b, c);
      var acted := EnforceDeadlines(w, 1);
      StepChain(b, c, store.Contents());
      StuckChain(b, c, store.Contents(), w, {});
      if acted {
        action := DeadlineAction;
      } else {
        action := Decide(w, report);
        StepChain(b, c, store.Contents());
        StuckChain(b, c, store.Contents(), w, {});
      }
      history := history + [action];
    }

    /** A mutation is outstanding: read from the store alone, before anything is asked of the broker. */
    method WorkingOrder(now: int) returns (found: bool)
      requires Valid()
      ensures found <==> exists id :: id in Owned(store.ledger, hasStore) && Outstanding(store.ledger, id, now)
    {
      hide Follow, Tracks;
      var ids := ManagedPositions();
      found := false;
      for k := 0 to |ids|
        invariant !found
        invariant forall j :: 0 <= j < k ==> !Outstanding(store.ledger, ids[j], now)
      {
        RowOf(store.Contents(), ids[k]);
        var order := store.ledger.orders[Watched(store.ledger.positions[ids[k]])];
        if order.submittedAt.Some? && !order.state.Terminal() && order.state != Prepared {
          if now - order.submittedAt.value <= ORDER_CLOCK_WINDOW { return true; }
        }
      }
    }

    /** The fast clock: reconcile and enforce deadlines while a mutation is outstanding. */
    method OrderClock(w: World) returns (action: Option<Action>)
      requires Valid()
      modifies store, this`executionState, this`gatewayState, this`history, this`lastAsked
      ensures Valid() && SlotStep(old(store.Contents()), store.Contents())
      ensures !SendsOpening(old(store.Contents()), store.Contents()) && Loose(store.events) == Loose(old(store.events))
      ensures (forall id :: id in Owned(old(store.ledger), hasStore) ==> !Outstanding(old(store.ledger), id, w.now)) ==>
                action == None && store.Contents() == old(store.Contents())
      ensures history == old(history) + if action.Some? then [action.value] else []
      ensures
        var b := Looked(hasReconciler, old(store.Contents()), w.looks(0));
        var gate := GateAfter(hasReconciler, old(store.Contents()), w.looks(0), old(gatewayState));
        if !(exists id :: id in Owned(old(store.ledger), hasStore) && Outstanding(old(store.ledger), id, w.now)) then
          Outcome(store.Contents(), gatewayState, action) == Outcome(old(store.Contents()), old(gatewayState), None)
        else if Powers().enforces && exists id :: Due(b.ledger, id, w.now) then
          action == Some(DeadlineAction) &&
          EnforcedThenLooked(Powers(), b, gate, w, 1, Outcome(store.Contents(), gatewayState, action), lastAsked)
        else Outcome(store.Contents(), gatewayState, action) == Outcome(b, gate, None)
      ensures action.Some? ==>
                CancelReopens(Looked(hasReconciler, old(store.Contents()), w.looks(0)), store.ledger,
                              hasReconciler, w, 1)
      ensures KeepsStuck(old(store.Contents()), store.Contents(), w, {})
    {
      hide Consistent, Follow, Loose, SlotStep, SendsOpening, In, Moves, SendsClose, Due, Outstanding, KeepsStuck;
      hide Looked, CleanLook, EnforcedThenLooked;
      hide CancelReopens;
      ghost var b := store.Contents();
      NoStep(b);
      StuckSelf(b, w, {});
      var working := WorkingOrder(w.now);
      if !working { return None; }
      var report := Reconcile(w, 0);
      ghost var c := store.Contents();
      MovesStep(b, c);
      MovesTight(b, c);
      var acted := EnforceDeadlines(w, 1);
      StepChain(b, c, store.Contents());
      StuckChain(b, c, store.Contents(), w, {});
      if acted {
        history := history + [DeadlineAction];
        return Some(DeadlineAction);
      }
      action := None;
    }

    /** The valuation clock: no entry is considered on it. */
    method PositionClock(w: World) returns (action: Option<Action>)
      requires Valid()
      modifies store, this`executionState, this`gatewayState, this`history, this`lastCycle
      ensures Valid() && SlotStep(old(store.Contents()), store.Contents())
      ensures !SendsOpening(old(store.Contents()), store.Contents()) && Loose(store.events) == Loose(old(store.events))
      ensures action.Some? ==> action.value in MANAGING + {PositionsManaged}
      ensures history == old(history) + if action.Some? then [action.value] else []
      ensures
        var b := Looked(hasReconciler, old(store.Contents()), w.looks(0));
        var gate := GateAfter(hasReconciler, old(store.Contents()), w.looks(0), old(gatewayState));
        if !Exposed(old(store.ledger), hasStore) then
          Outcome(store.Contents(), gatewayState, action) == Outcome(old(store.Contents()), old(gatewayState), None)
        else if !Exposed(b.ledger, hasStore) || w.observed.None? || !w.marketOpen then
          Outcome(store.Contents(), gatewayState, action) == Outcome(b, gate, None)
        else
          action.Some? && CycleDid(Powers(), b, gate, w, Outcome(store.Contents(), gatewayState, action), lastCycle)
      ensures KeepsStuck(old(store.Contents()), store.Contents(), w, {})
    {
      hide Consistent, Follow, Loose, SlotStep, SendsOpening, In, Moves, SendsClose, Valuable, Owned, KeepsStuck;
      hide Looked, CleanLook, CycleDid;
      ghost var b := store.Contents();
      NoStep(b);
      StuckSelf(b, w, {});
      var active := ActivePosition();
      if !active { return None; }
      var report := Reconcile(w, 0);
      ghost var c := store.Contents();
      MovesStep(b, c);
      MovesTight(b, c);
      active := ActivePosition();
      if !active || w.observed.None? || !w.marketOpen { return None; }
      var managed := ManageAll(w);
      StepChain(b, c, store.Contents());
      StuckChain(b, c, store.Contents(), w, {});
      history := history + [managed];
      action := Some(managed);
    }
  }

  const ORDER_CLOCK_WINDOW: int := 600

  /** A row whose watched order was sent at most ten minutes ago and has not ended. */
  predicate Outstanding(l: Ledger, id: Id, now: int)
  {
    && RowOk(l, id)
    && var order := l.orders[Watched(l.positions[id])];
       && order.submittedAt.Some? && !order.state.Terminal() && order.state != Prepared
       && now - order.submittedAt.value <= ORDER_CLOCK_WINDOW
  }

  /** For ten minutes after it was sent, an order that has not ended keeps the fast clock going. */
  lemma OutstandingReads(l: Ledger, id: Id, now: int)
    requires RowOk(l, id)
    ensures Outstanding(l, id, now) <==>
      var p := l.positions[id];
      var order := l.orders[if p.state == Closing then p.close.value else p.entry];
      && order.submittedAt.Some? && order.state in {Submitted, PartiallyFilled, Ambiguous}
      && now <= order.submittedAt.value + 600
  {
  }

  // ---------------------------------------------------------------------------- the runs

  datatype Call = Strategy(w: World) | Orders(w: World) | Positions(w: World)

  ghost predicate NeverShown(calls: seq<Call>, id: Id, how: Plight)
  {
    forall k :: 0 <= k < |calls| ==> Unshown(calls[k].w, id, how)
  }

  /** Every strategy call of the run from that time on ended on a deadline. */
  predicate DeadlinesFrom(calls: seq<Call>, actions: seq<Option<Action>>, from: int)
  {
    |calls| == |actions| &&
    forall k :: 0 <= k < |calls| && calls[k].Strategy? && calls[k].w.now >= from ==> actions[k] == Some(DeadlineAction)
  }

  /** What a run does for a row that starts stuck and of which the broker never tells anything. */
  ghost predicate StaysStuck(b: Book, c: Book, calls: seq<Call>, actions: seq<Option<Action>>,
                             enforces: bool, hasStore: bool, id: Id, how: Plight)
  {
    && StillIn(b, c, id, how)
    && (how.RefusedAt? && enforces ==> DeadlinesFrom(calls, actions, how.at + ENTRY_DEADLINE))
    && (how == EntryUnsent && hasStore ==> !SendsOpening(b, c))
  }

  /**
    Any run of the three clocks. The unresolved rows stay within one, plus a row for each
    late fill reinstated; an agent that persists its entries keeps its journal tight; and a
    stuck row stays stuck until the broker tells something: a refused entry ends every
    strategy call past its deadline as DEADLINE_ACTION, an entry never sent keeps every
    opening order from going out, and a close never sent is never sent again.
  */
  method Run(agent: TradingAgent, calls: seq<Call>) returns (actions: seq<Option<Action>>)
    requires agent.Valid()
    modifies agent, agent.store
    ensures agent.Valid() && SlotStep(old(agent.store.Contents()), agent.store.Contents())
    ensures agent.hasStore && (old(agent.decisionRow) || agent.records) ==>
              Loose(agent.store.events) == Loose(old(agent.store.events))
    ensures |actions| == |calls|
    ensures forall id, how :: In(old(agent.store.ledger), id, how) && NeverShown(calls, id, how) ==>
              StaysStuck(old(agent.store.Contents()), agent.store.Contents(), calls, actions,
                         agent.hasDeadlines && agent.mayWrite, agent.hasStore, id, how)
  {
    hide Consistent, Follow, Loose, SlotStep, SendsOpening, In, EntryAllowed, Due, Outstanding, Owned, KeepsStuck;
    hide StaysStuck, NeverShown, Looked, TickAnswers, CleanLook, LiveIds;
    ghost var b := agent.store.Contents();
    NoStep(b);
    actions := [];
    StuckAtFirst(b, agent.hasDeadlines && agent.mayWrite, agent.hasStore);
    for k := 0 to |calls|
      invariant agent.Valid() && SlotStep(b, agent.store.Contents()) && |actions| == k
      invariant old(agent.decisionRow) ==> agent.decisionRow
      invariant agent.hasStore && (old(agent.decisionRow) || agent.records) ==>
                  Loose(agent.store.events) == Loose(b.events)
      invariant forall id, how :: In(b.ledger, id, how) && NeverShown(calls[..k], id, how) ==>
                  StaysStuck(b, agent.store.Contents(), calls[..k], actions,
                             agent.hasDeadlines && agent.mayWrite, agent.hasStore, id, how)
    {
      ghost var c := agent.store.Contents();
      ghost var before := actions;
      var action := Make(agent, calls[k]);
      actions := actions + [action];
      StepChain(b, c, agent.store.Contents());
      assert calls[..k + 1] == calls[..k] + [calls[k]];
      forall id, how | In(b.ledger, id, how) && NeverShown(calls[..k + 1], id, how)
        ensures StaysStuck(b, agent.store.Contents(), calls[..k + 1], actions,
                           agent.hasDeadlines && agent.mayWrite, agent.hasStore, id, how)
      {
        ShownBefore(calls[..k], calls[k], id, how);
        StuckSoFar(b, c, calls[..k], before, agent.hasDeadlines && agent.mayWrite, agent.hasStore, id, how);
        OneCallMore(b, c, agent.store.Contents(), calls[..k], before, calls[k], action,
                    agent.hasDeadlines && agent.mayWrite, agent.hasStore, id, how);
      }
    }
    assert calls[..|calls|] == calls;
  }

  /** One call of a run. */
  method Make(agent: TradingAgent, call: Call) returns (action: Option<Action>)
    requires agent.Valid()
    modifies agent, agent.store
    ensures agent.Valid() && SlotStep(old(agent.store.Contents()), agent.store.Contents())
    ensures old(agent.decisionRow) ==> agent.decisionRow
    ensures agent.hasStore && (old(agent.decisionRow) || agent.records) ==>
              Loose(agent.store.events) == Loose(old(agent.store.events))
    ensures KeepsStuck(old(agent.store.Contents()), agent.store.Contents(), call.w, {})
    ensures forall id, how :: In(old(agent.store.ledger), id, how) && Unshown(call.w, id, how) ==>
              Holds(call, action, old(agent.store.Contents()), agent.store.Contents(),
                    agent.hasDeadlines && agent.mayWrite, agent.hasStore, how)
  {
    hide Consistent, Follow, Loose, SlotStep, SendsOpening, In, EntryAllowed, Due, Outstanding, Owned, KeepsStuck;
    hide Unshown, TickDid, TickOpens, CycleDid, EnforcedThenLooked, Exposed, EntryAllowed;
    hide Looked, TickAnswers, CleanLook, LiveIds;
    ghost var b := agent.store.Contents();
    match call {
      case Strategy(w) =>
        var done := agent.Tick(w);
        action := Some(done);
        forall id, how | In(b.ledger, id, how) && Unshown(w, id, how)
          ensures Holds(call, action, b, agent.store.Contents(),
                        agent.hasDeadlines && agent.mayWrite, agent.hasStore, how)
        {
          StuckStopsTheTick(agent.hasReconciler, b, w, id, how);
        }
      case Orders(w) =>
        action := agent.OrderClock(w);
      case Positions(w) =>
        action := agent.PositionClock(w);
    }
  }

  /** What one call does for such a row: it ends on the deadline, or it opens nothing. */
  ghost predicate Holds(call: Call, action: Option<Action>, b: Book, c: Book, enforces: bool, hasStore: bool,
                        how: Plight)
  {
    && (how.RefusedAt? && enforces && call.Strategy? && call.w.now >= how.at + ENTRY_DEADLINE ==>
        action == Some(DeadlineAction))
    && (how == EntryUnsent && hasStore ==> !SendsOpening(b, c))
  }

  /** On the book a tick has reconciled, the row is still there: due, or holding the slot. */
  lemma StuckStopsTheTick(reconciles: bool, b: Book, w: World, id: Id, how: Plight)
    requires Consistent(b) && In(b.ledger, id, how) && Unshown(w, id, how)
    ensures var c := Looked(reconciles, b, w.looks(0));
      && (how.RefusedAt? && w.now >= how.at + ENTRY_DEADLINE ==> Due(c.ledger, id, w.now))
      && (how == EntryUnsent ==> id in LiveIds(c.ledger))
  {
    hide Consistent, AfterLook;
    if reconciles {
      assert Silent(w.looks(0), id, how);
      LookStaysIn(b, w.looks(0), id, how);
    }
    var c := Looked(reconciles, b, w.looks(0));
    if how.RefusedAt? && w.now >= how.at + ENTRY_DEADLINE { RefusedIsDue(c.ledger, id, how.at, w.now); }
  }

  lemma StuckAtFirst(b: Book, enforces: bool, hasStore: bool)
    ensures forall id, how :: In(b.ledger, id, how) ==> StaysStuck(b, b, [], [], enforces, hasStore, id, how)
  {
    hide In;
  }

  lemma StuckSoFar(b: Book, c: Book, calls: seq<Call>, actions: seq<Option<Action>>, enforces: bool, hasStore: bool,
                   id: Id, how: Plight)
    requires StaysStuck(b, c, calls, actions, enforces, hasStore, id, how)
    ensures In(c.ledger, id, how)
  {
    hide In;
  }

  lemma ShownBefore(calls: seq<Call>, call: Call, id: Id, how: Plight)
    requires NeverShown(calls + [call], id, how)
    ensures NeverShown(calls, id, how) && Unshown(call.w, id, how)
  {
    hide Unshown;
    var all := calls + [call];
    assert all[|calls|] == call;
    forall k | 0 <= k < |calls| ensures Unshown(calls[k].w, id, how) { assert all[k] == calls[k]; }
  }

  lemma OneCallMore(b: Book, c: Book, d: Book, calls: seq<Call>, actions: seq<Option<Action>>, call: Call,
                    action: Option<Action>,
                    enforces: bool, hasStore: bool, id: Id, how: Plight)
    requires StaysStuck(b, c, calls, actions, enforces, hasStore, id, how) && |calls| == |actions|
    requires SlotStep(b, c) && KeepsStuck(c, d, call.w, {}) && Unshown(call.w, id, how) && SlotStep(c, d)
    requires Holds(call, action, c, d, enforces, hasStore, how)
    ensures StaysStuck(b, d, calls + [call], actions + [action], enforces, hasStore, id, how)
  {
    hide In, Unshown, SendsOpening;
    StepChain(b, c, d);
    assert StillIn(c, d, id, how);
    hide KeepsStuck, SlotStep;
    assert b.events <= c.events <= d.events by { SlotPrefix(b, c); SlotPrefix(c, d); }
    ClosesNever(b, c, d, id);
  }

  lemma SlotPrefix(b: Book, c: Book)
    requires SlotStep(b, c)
    ensures b.events <= c.events
  {
  }

  lemma ClosesNever(a: Book, b: Book, c: Book, id: Id)
    requires a.events <= b.events <= c.events
    ensures ClosesIts(a, c, id) ==> ClosesIts(a, b, id) || ClosesIts(b, c, id)
  {
    if k :| |a.events| <= k < |c.events| && c.events[k].CloseSent? && c.events[k].id == id {
      if k < |b.events| { assert b.events[k].CloseSent? && b.events[k].id == id; }
    }
  }

  /** Without a late fill reinstated, a book with at most one unresolved row keeps at most one. */
  lemma OneSlot(b: Book, c: Book)
    requires SlotStep(b, c) && |LiveIds(b.ledger)| <= 1
    ensures Revivals(c.events) == Revivals(b.events) ==> |LiveIds(c.ledger)| <= 1
    ensures |LiveIds(c.ledger)| > 1 ==> exists k :: |b.events| <= k < |c.events| && c.events[k].Revived?
  {
    if forall k :: |b.events| <= k < |c.events| ==> !c.events[k].Revived? { NoRevival(b.events, c.events); }
  }

  /** What the agent owns, in recorded order. */
  function Owned(l: Ledger, hasStore: bool): seq<Id>
  {
    if hasStore then Active(l.ids, l, false) else []
  }

  /** The rows that own the slot and hold nothing to value: reported, never omitted. */
  method Others(positions: seq<Id>, l: Ledger) returns (results: seq<Managed>)
    requires Has(l, positions)
    ensures Ids(results) == Select(positions, l, false) && Valued(results) == 0 && Managing(results)
    ensures TellsOthers(results, positions, l)
  {
    hide Ids, Valued;
    results := [];
    NoResults();
    for k := 0 to |positions|
      invariant Ids(results) == Select(positions[..k], l, false) && Valued(results) == 0 && Managing(results)
      invariant TellsOthers(results, positions[..k], l)
    {
      var id := positions[k];
      assert positions[..k + 1] == positions[..k] + [id];
      assert positions[..k + 1][..k] == positions[..k];
      if !Valuable(l, id) {
        var m := Managed(id, if l.positions[id].state == Pending then EntryInFlight else PositionIncident, false);
        OneMore(results, m);
        results := results + [m];
      }
    }
    assert positions[..|positions|] == positions;
  }

  /** The results put back into the order the positions were listed in. */
  method Assemble(positions: seq<Id>, acted: seq<Managed>, others: seq<Managed>, valued: nat, l: Ledger)
    returns (cycle: Cycle)
    requires Distinct(positions) && valued == Valued(acted) && Valued(others) == 0 && Managing(acted)
    requires Managing(others)
    requires multiset(Ids(acted)) + multiset(Ids(others)) == multiset(positions)
    ensures OneEach(positions, cycle)
    ensures forall r :: r in acted || r in others ==> r in cycle.results
  {
    hide Valued, SortBy, IndexOf, Managing;
    var results := acted + others;
    ManagingBoth(acted, others);
    var key: Managed -> Key := (m: Managed) => (IndexOf(positions, m.id), 0);
    var ident := (m: Managed) => m.id;
    MapPlus(acted, others, ident);
    SortMaps(results, key, ident);
    SortSorts(results, key);
    var sorted := SortBy(results, key);
    SortKeeps(results, key);
    SortHas(results, key);
    assert multiset(Ids(sorted)) == multiset(positions);
    OrderRestored(positions, Ids(sorted));
    ValuedPlus(acted, others);
    ValuedSorts(results, key);
    ValuedBound(sorted);
    cycle := Cycle(|positions|, valued, sorted);
  }

  lemma NeedsOpen(l: Ledger, state: ExecutionState, mayWrite: bool, w: World, snap: Snapshot, id: Id)
    ensures CloseGoesOut(l, state, mayWrite, w, snap, id) ==> Valuable(l, id)
    ensures CloseAnswered(l, state, mayWrite, w, snap, id) ==> Valuable(l, id)
    ensures ExitLost(l, state, mayWrite, w, snap, id) ==> Valuable(l, id)
  {
  }

  lemma ClosesSelf(b: Book, ids: seq<Id>)
    ensures ClosesOnceEach(b, b, ids) && !SendsClose(b, b)
  {
  }

  lemma NoTurns(snap: Snapshot, w: World, m: Means, b: Book, state: ExecutionState)
    ensures InTurn([], [], snap, w, m, b, state, b, state) && Tells([], [], [])
  {
  }

  lemma NothingToAct(ids: seq<Id>, turns: seq<Turn>, snap: Snapshot, w: World, m: Means, b: Book, state: ExecutionState)
    requires ids == [] && turns == []
    ensures InTurn(turns, ids, snap, w, m, b, state, b, state) && Sorted(ids, UrgencyKey(b.ledger, snap, w))
  {
  }

  lemma OneTurn(t: Turn, id: Id, snap: Snapshot, w: World, m: Means, k: nat)
    requires Outcome(t.after, t.left, Some(t.action)) == TurnBy(m, t.before, t.state, id, snap, w, k)
    requires ClosesOnceEach(t.before, t.after, [id]) && Unfreezing(t.state, t.left)
    requires SendsClose(t.before, t.after) <==> CloseGoesOut(t.before.ledger, t.state, m.mayWrite, w, snap, id)
    requires t.action == CloseSubmitted <==> CloseAnswered(t.before.ledger, t.state, m.mayWrite, w, snap, id)
    requires ExitLost(t.before.ledger, t.state, m.mayWrite, w, snap, id) ==> t.action in FAILING
    requires t.action in FAILING ==> InIncident(t.after.ledger, id)
    ensures TookTurn(t, id, snap, w, m, k)
  {
  }

  // ----------------------------------------------------------------- what the results tell

  lemma NothingTold(why: Action)
    ensures TellsUnvalued([], [], why)
  {
  }

  lemma OneUnvalued(rs: seq<Managed>, ids: seq<Id>, m: Managed)
    ensures TellsUnvalued(rs, ids, m.action) && !m.valued ==> TellsUnvalued(rs + [m], ids + [m.id], m.action)
  {
  }

  lemma OneTold(rs: seq<Managed>, ids: seq<Id>, turns: seq<Turn>, more: seq<Turn>, m: Managed)
    requires Tells(rs, ids, turns) && |more| == |ids| + 1 && more[..|ids|] == turns
    requires more[|ids|].action == m.action && (m.valued <==> m.action in MANAGING)
    ensures Tells(rs + [m], ids + [m.id], more)
  {
    var all := ids + [m.id];
    forall k | 0 <= k < |all| ensures Told(all[k], more[k]) in rs + [m] {
      if k < |ids| {
        assert more[k] == turns[k] && Told(ids[k], turns[k]) in rs;
      } else {
        assert (rs + [m])[|rs|] == Told(all[k], more[k]);
      }
    }
  }

  lemma ToldStill(rs: seq<Managed>, all: seq<Managed>, ids: seq<Id>, turns: seq<Turn>)
    requires Tells(rs, ids, turns) && forall r :: r in rs ==> r in all
    ensures Tells(all, ids, turns)
  {
  }

  lemma UnvaluedStill(rs: seq<Managed>, all: seq<Managed>, ids: seq<Id>, why: Action)
    requires (ids != [] ==> TellsUnvalued(rs, ids, why)) && forall r :: r in rs ==> r in all
    ensures TellsUnvalued(all, ids, why)
  {
  }

  lemma OthersStill(rs: seq<Managed>, all: seq<Managed>, ids: seq<Id>, l: Ledger)
    requires TellsOthers(rs, ids, l) && forall r :: r in rs ==> r in all
    ensures TellsOthers(all, ids, l)
  {
  }

  /** The cycle that ran is one, and a single valuable position stood alone in it. */
  lemma CycleIs(m: Means, b: Book, gate: ExecutionState, w: World, o: Outcome, results: seq<Managed>,
                acted: seq<Id>, turns: seq<Turn>)
    requires w.observed.Some? && Tells(results, acted, turns)
    requires multiset(acted) == multiset(Select(Owned(b.ledger, m.hasStore), b.ledger, true))
    requires InUrgencyOrder(acted, turns, w.observed.value, w, m, b, gate, o.book, o.gate)
    ensures Cycled(m, b, gate, w, o, results, acted, turns) && AloneCloses(m, b, gate, w, o.book)
  {
    hide Select, Tells, SendsClose, CloseGoesOut, TookTurn, Sorted, EachOnItsOwn, UrgencyKey;
    forall id: Id | Select(Owned(b.ledger, m.hasStore), b.ledger, true) == [id]
      ensures SendsClose(b, o.book) <==> CloseGoesOut(b.ledger, gate, m.mayWrite, w, w.observed.value, id)
    {
      OnlyElement(acted, id);
      TookOne(turns, acted, w.observed.value, w, m, 0);
    }
  }

  /**
    The one position with exposure: the call's effect is its turn's, and so is the answer where
    that turn ended in one.
  */
  lemma LoneAnswer(m: Means, b: Book, gate: ExecutionState, w: World, o: Outcome, last: Option<Cycle>, id: Id)
    returns (t: Turn)
    requires Consistent(b) && w.observed.Some? && CycleDid(m, b, gate, w, o, last)
    requires Select(Owned(b.ledger, m.hasStore), b.ledger, true) == [id]
    ensures t.before == b && t.state == gate && t.after == o.book && t.left == o.gate
    ensures TookTurn(t, id, w.observed.value, w, m, 1)
    ensures o.action == Some(if t.action in MANAGING then t.action else PositionsManaged)
  {
    hide Consistent, Select, TookTurn, Sorted, EachOnItsOwn, UrgencyKey, Valuable, AloneCloses, Owned;
    var rs := last.value.results;
    var acted, turns :| Cycled(m, b, gate, w, o, rs, acted, turns);
    OnlyElement(acted, id);
    AsManyTurns(turns, acted, w.observed.value, w, m);
    t := turns[0];
    assert TookTurn(turns[0], acted[0], w.observed.value, w, m, 1);
    assert Told(acted[0], turns[0]) in rs;
    LoneValued(m, b, rs, id, t);
  }

  lemma LoneValued(m: Means, b: Book, rs: seq<Managed>, id: Id, t: Turn)
    requires Consistent(b) && Select(Owned(b.ledger, m.hasStore), b.ledger, true) == [id]
    requires Ids(rs) == Owned(b.ledger, m.hasStore) && Told(id, t) in rs
    requires TellsOthers(rs, Owned(b.ledger, m.hasStore), b.ledger)
    ensures exists i: nat :: i < |rs| && rs[i] == Told(id, t) && forall j :: 0 <= j < |rs| && j != i ==> !rs[j].valued
  {
    hide Follow, Tracks, RowOk, Valuable, Select;
    var ids := Owned(b.ledger, m.hasStore);
    ActiveDistinct(b.ledger.ids, b.ledger, false);
    var i: nat :| i < |rs| && rs[i] == Told(id, t);
    assert ids[i] == id;
    forall j | 0 <= j < |rs| && j != i ensures !rs[j].valued {
      assert ids[j] == rs[j].id && ids[j] != id;
      assert ids[j] in ids && ids[j] !in Select(ids, b.ledger, true);
      OwnedIsARow(b, m.hasStore, ids[j]);
      var other := Managed(ids[j], if b.ledger.positions[ids[j]].state == Pending then EntryInFlight
                                   else PositionIncident, false);
      assert other in rs;
      var k: nat :| k < |rs| && rs[k] == other;
      assert ids[k] == ids[j];
    }
  }

  lemma OwnedIsARow(b: Book, hasStore: bool, id: Id)
    requires id in Owned(b.ledger, hasStore)
    ensures id in b.ledger.positions
  {
  }

  /**
    A stop that can be sent is sent. The one position with exposure stands open, is worth half
    its fill or less, and nothing forbids its close: the call answers that the close went out.
  */
  lemma StopIsSent(m: Means, b: Book, gate: ExecutionState, w: World, o: Outcome, last: Option<Cycle>, id: Id)
    requires Consistent(b) && w.observed.Some? && CycleDid(m, b, gate, w, o, last)
    requires Select(Owned(b.ledger, m.hasStore), b.ledger, true) == [id]
    requires AtItsStop(b.ledger, w.observed.value, id) && gate != FreezeAllWrites && m.mayWrite
    requires var d := w.closeDesk(id); d.paper && !d.expired && d.matches && !d.response.Lost?
    requires w.fault(id) == Nowhere && forall q, t, x :: w.closeClient(id, q, t, x) !in b.ledger.intents
    ensures o.action == Some(CloseSubmitted) && SendsClose(b, o.book)
  {
    var t := LoneAnswer(m, b, gate, w, o, last, id);
    StopGoesOut(m, b.ledger, gate, w, w.observed.value, id);
    hide Consistent, CycleDid, Select, AtItsStop, Owned, CloseGoesOut, SendsClose, TurnBy, ExitLost, ClosesOnceEach;
  }

  predicate AtItsStop(l: Ledger, snap: Snapshot, id: Id)
  {
    && id in l.positions && l.positions[id].state == Open && l.positions[id].debit.Some?
    && !Exits.Disagrees(snap.exits(id)) && snap.exits(id).currentValue.Some?
    && snap.exits(id).currentValue.value <= l.positions[id].debit.value / 2.0 - 0.005
  }

  lemma StopGoesOut(m: Means, l: Ledger, gate: ExecutionState, w: World, snap: Snapshot, id: Id)
    requires AtItsStop(l, snap, id) && gate != FreezeAllWrites && m.mayWrite
    requires var d := w.closeDesk(id); d.paper && !d.expired && d.matches && !d.response.Lost?
    requires w.fault(id) == Nowhere && forall q, t, x :: w.closeClient(id, q, t, x) !in l.intents
    ensures CloseAnswered(l, gate, m.mayWrite, w, snap, id)
  {
    var s := ExitInputs(l.positions[id], snap, id);
    FiringReads(l, snap, id);
    Exits.TriggersRead(s);
    Exits.AmountsRead(s);
    hide Exits.EvaluateExit, Exits.RuleSaysOut, Exits.StopLevel, Exits.ProfitTarget;
  }

  // ------------------------------------------------------- what an operation leaves, read

  /**
    A book with the row and the order `n` as given, the row listed last when it is new, the
    order's intent known, and these events after the ones it had; the rest as before.
  */
  ghost predicate Leaves(b: Book, c: Book, id: Id, p: Position, n: OrderId, order: Order, more: seq<Event>)
  {
    && c.ledger.positions == b.ledger.positions[id := p] && c.ledger.orders == b.ledger.orders[n := order]
    && c.ledger.ids == b.ledger.ids + (if id in b.ledger.positions then [] else [id])
    && c.ledger.intents == b.ledger.intents + {order.client} && c.ledger.next == n + 1
    && c.events == b.events + more
  }

  /** What an answer is kept as: a fill is only submitted, an answer that had to be looked up is ambiguous. */
  function KeptAs(answer: Submission): OrderState
  {
    if answer.ambiguous then Ambiguous
    else if answer.status in {Filled, PartiallyFilled} then OrderState.Submitted
    else answer.status
  }

  /** The look at the end of an operation, where the agent reconciles. */
  ghost predicate EndsLooking(m: Means, e: Book, gate: ExecutionState, look: BrokerRead, o: Outcome)
  {
    && Consistent(e) && o.book == (if m.reconciles then AfterLook(e, look) else e)
    && o.gate == if !m.reconciles then gate else if CleanLook(e, look) then Normal else NoNewRisk
  }

  /**
    An entry under a new client id, by its answer: refused, its row is abandoned over an order
    kept as unanswered; unknown, the row is an incident and new risk halts; answered, the row
    is pending and the answer kept; after both of these the broker is asked.
  */
  lemma EntryReads(m: Means, b: Book, gate: ExecutionState, client: ClientId, w: World, k: nat) returns (e: Book)
    requires Consistent(b) && client !in b.ledger.intents
    ensures
      var n, o := b.ledger.next, PersistedEntryBy(m, b, gate, client, w, k);
      var unanswered := Order(n, client, Entry, Ambiguous, 0, None, false, Some(w.now));
      match Submit(m.mayWrite, gate, false, w.entryDesk)
      case Failure(Guarded) =>
        && o == Outcome(e, gate, Some(EntryRefused))
        && Leaves(b, e, n, Position(Abandoned, n, None, 0, None), n, unanswered, [Persisted(client)])
      case Failure(OutcomeUnknown) =>
        && o.action == Some(EntryAmbiguous) && EndsLooking(m, e, NoNewRisk, w.looks(k), o)
        && Leaves(b, e, n, Position(Incident, n, None, 0, None), n, unanswered,
                  [Persisted(client), OpenSent(client), Troubled(n)])
      case Success(answer) =>
        && o.action == Some(EntrySubmitted) && EndsLooking(m, e, gate, w.looks(k), o)
        && Leaves(b, e, n, Position(Pending, n, None, 0, None), n,
                  unanswered.(state := KeptAs(answer), brokerId := answer.hasId), [Persisted(client), OpenSent(client)])
  {
    hide Consistent, AfterLook, CleanLook, Submit, Leaves, AfterResponse, AfterIncident, AfterEntry, EndsLooking;
    hide ThenLooked, AfterPrepareEntry, KeptAs, ClosesOnceEach, SendsClose, KeepsStuck;
    var n, c := b.ledger.next, AfterPrepareEntry(b, client);
    var d := AfterSend(c, OpenSent(client));
    OpenSentKeeps(b, client);
    EntryLeaves(b, client);
    match Submit(m.mayWrite, gate, false, w.entryDesk)
    case Failure(Guarded) =>
      e := GivenUp(c, n, w.now);
      GivenUpLeaves(b, c, n, client, w.now);
    case Failure(OutcomeUnknown) =>
      UnknownLeaves(b, d, n, client, w);
      e := AfterIncident(AfterResponse(d, n, Ambiguous, false, w.now), n);
      LooksThen(m, e, NoNewRisk, w.looks(k), EntryAmbiguous);
    case Success(answer) =>
      e := AfterResponse(d, n, if answer.ambiguous then Ambiguous else answer.status, answer.hasId, w.now);
      AnswerLeaves(b, d, n, n, Position(Pending, n, None, 0, None), NotSent(n, client, Entry), answer, w,
                   [Persisted(client), OpenSent(client)]);
      LooksThen(m, e, gate, w.looks(k), EntrySubmitted);
  }

  lemma EntryLeaves(b: Book, client: ClientId)
    requires Consistent(b)
    ensures var n, c := b.ledger.next, AfterPrepareEntry(b, client);
      var p, order := Position(Pending, n, None, 0, None), NotSent(n, client, Entry);
      && Leaves(b, c, n, p, n, order, [Persisted(client)])
      && Leaves(b, AfterSend(c, OpenSent(client)), n, p, n, order, [Persisted(client), OpenSent(client)])
      && Owns(c.ledger, n, n) && n in c.ledger.positions
  {
    PrepareEntrySound(b, client);
  }

  lemma CloseLeaves(b: Book, id: Id, client: ClientId)
    requires Consistent(b) && id in b.ledger.positions
    ensures var n, c := b.ledger.next, AfterPrepareClose(b, id, client);
      var p, order := b.ledger.positions[id].(state := Closing, close := Some(n)), NotSent(id, client, Close);
      && Leaves(b, c, id, p, n, order, [Persisted(client)])
      && Leaves(b, AfterSend(c, CloseSent(id, client)), id, p, n, order, [Persisted(client), CloseSent(id, client)])
      && Owns(c.ledger, id, n)
  {
  }

  lemma GivenUpLeaves(b: Book, c: Book, n: Id, client: ClientId, now: int)
    requires n in c.ledger.orders && n in c.ledger.positions
    requires Leaves(b, c, n, Position(Pending, n, None, 0, None), n, NotSent(n, client, Entry), [Persisted(client)])
    ensures Leaves(b, GivenUp(c, n, now), n, Position(Abandoned, n, None, 0, None), n,
                   Order(n, client, Entry, Ambiguous, 0, None, false, Some(now)), [Persisted(client)])
  {
  }

  lemma UnknownLeaves(b: Book, d: Book, n: Id, client: ClientId, w: World)
    requires Consistent(d) && Owns(d.ledger, n, n) && n in d.ledger.positions
    requires Leaves(b, d, n, Position(Pending, n, None, 0, None), n, NotSent(n, client, Entry),
                    [Persisted(client), OpenSent(client)])
    ensures
      var c := AfterResponse(d, n, Ambiguous, false, w.now);
      && n in c.ledger.positions && Consistent(AfterIncident(c, n))
      && Leaves(b, AfterIncident(c, n), n, Position(Incident, n, None, 0, None), n,
                Order(n, client, Entry, Ambiguous, 0, None, false, Some(w.now)),
                [Persisted(client), OpenSent(client), Troubled(n)])
  {
    hide Consistent, Leaves, ClosesOnceEach, SendsClose, KeepsStuck, AfterIncident;
    var c := AfterResponse(d, n, Ambiguous, false, w.now);
    Responded(d, n, n, Ambiguous, false, w);
    IncidentKeeps(c, n);
    var p := Position(Pending, n, None, 0, None);
    UnansweredLeaves(b, d, n, n, p, NotSent(n, client, Entry), w.now, [Persisted(client), OpenSent(client)]);
    IncidentLeaves(b, c, n, p, n, Order(n, client, Entry, Ambiguous, 0, None, false, Some(w.now)),
                   [Persisted(client), OpenSent(client)]);
    assert [Persisted(client), OpenSent(client)] + [Troubled(n)] ==
           [Persisted(client), OpenSent(client), Troubled(n)];
  }

  lemma IncidentLeaves(b: Book, c: Book, id: Id, p: Position, n: OrderId, order: Order, more: seq<Event>)
    requires Leaves(b, c, id, p, n, order, more) && id in c.ledger.positions && p.state == Pending
    ensures Leaves(b, AfterIncident(c, id), id, p.(state := Incident), n, order, more + [Troubled(id)])
  {
  }

  lemma AnswerLeaves(b: Book, d: Book, id: Id, n: OrderId, p: Position, order: Order, answer: Submission, w: World,
                     more: seq<Event>)
    requires Consistent(d) && Owns(d.ledger, id, n) && Leaves(b, d, id, p, n, order, more)
    ensures
      var e := AfterResponse(d, n, if answer.ambiguous then Ambiguous else answer.status, answer.hasId, w.now);
      && Consistent(e)
      && Leaves(b, e, id, p, n, order.(state := KeptAs(answer), brokerId := answer.hasId, submittedAt := Some(w.now)),
                more)
  {
    hide Consistent, ClosesOnceEach, SendsClose, KeepsStuck;
    Responded(d, n, id, if answer.ambiguous then Ambiguous else answer.status, answer.hasId, w);
  }

  lemma UnansweredLeaves(b: Book, d: Book, id: Id, n: OrderId, p: Position, order: Order, now: int, more: seq<Event>)
    requires n in d.ledger.orders && Leaves(b, d, id, p, n, order, more)
    ensures Leaves(b, AfterResponse(d, n, Ambiguous, false, now), id, p, n,
                   order.(state := Ambiguous, brokerId := false, submittedAt := Some(now)), more)
  {
  }

  lemma LooksThen(m: Means, e: Book, gate: ExecutionState, look: BrokerRead, action: Action)
    requires Consistent(e)
    ensures EndsLooking(m, e, gate, look, ThenLooked(m, e, gate, look, action))
    ensures ThenLooked(m, e, gate, look, action).action == Some(action)
  {
    hide Consistent, AfterLook, CleanLook;
  }

  /**
    A close under a new client id: its row is CLOSING over an order that is unsent where the
    record raises, kept as unanswered where it is refused or its outcome unknown, and kept as
    answered before the broker is asked; what was sent is in the journal.
  */
  lemma CloseReads(m: Means, b: Book, gate: ExecutionState, id: Id, client: ClientId, s: Exits.Inputs, w: World, k: nat)
    returns (e: Book)
    requires Consistent(b) && id in b.ledger.positions && b.ledger.positions[id].state in {Open, Incident}
    requires client !in b.ledger.intents
    ensures
      var n, o := b.ledger.next, ClosedBy(m, b, gate, id, client, s, w, k);
      var closing := b.ledger.positions[id].(state := Closing, close := Some(n));
      var unsent := Order(id, client, Close, Prepared, 0, None, false, None);
      var unanswered := unsent.(state := Ambiguous, submittedAt := Some(w.now));
      if w.fault(id) == AtRecord || Exits.Disagrees(s) then
        o == Outcome(e, gate, None) && Leaves(b, e, id, closing, n, unsent, [Persisted(client)])
      else
        match Submit(m.mayWrite, gate, true, w.closeDesk(id))
        case Failure(Guarded) =>
          o == Outcome(e, gate, Some(ExitRefused)) && Leaves(b, e, id, closing, n, unanswered, [Persisted(client)])
        case Failure(OutcomeUnknown) =>
          && o == Outcome(e, gate, Some(ExitRefused))
          && Leaves(b, e, id, closing, n, unanswered, [Persisted(client), CloseSent(id, client)])
        case Success(answer) =>
          if w.fault(id) == AtResponse then
            && o == Outcome(e, gate, None)
            && Leaves(b, e, id, closing, n, unsent, [Persisted(client), CloseSent(id, client)])
          else
            && o.action == Some(CloseSubmitted) && EndsLooking(m, e, gate, w.looks(k), o)
            && Leaves(b, e, id, closing, n, unanswered.(state := KeptAs(answer), brokerId := answer.hasId),
                      [Persisted(client), CloseSent(id, client)])
  {
    hide Consistent, AfterLook, CleanLook, Submit, Leaves, AfterResponse, AfterPrepareClose, EndsLooking, ThenLooked;
    hide KeptAs, ClosesOnceEach, SendsClose, KeepsStuck, Exits.Disagrees;
    var n, c := b.ledger.next, AfterPrepareClose(b, id, client);
    var d := AfterSend(c, CloseSent(id, client));
    var p, order := b.ledger.positions[id].(state := Closing, close := Some(n)), NotSent(id, client, Close);
    PreparedClose(b, id, client, w);
    CloseLeaves(b, id, client);
    if w.fault(id) == AtRecord || Exits.Disagrees(s) { return c; }
    match Submit(m.mayWrite, gate, true, w.closeDesk(id))
    case Failure(Guarded) =>
      e := AfterResponse(c, n, Ambiguous, false, w.now);
      UnansweredLeaves(b, c, id, n, p, order, w.now, [Persisted(client)]);
    case Failure(OutcomeUnknown) =>
      e := AfterResponse(d, n, Ambiguous, false, w.now);
      UnansweredLeaves(b, d, id, n, p, order, w.now, [Persisted(client), CloseSent(id, client)]);
    case Success(answer) =>
      if w.fault(id) == AtResponse { return d; }
      e := AfterResponse(d, n, if answer.ambiguous then Ambiguous else answer.status, answer.hasId, w.now);
      AnswerLeaves(b, d, id, n, p, order, answer, w, [Persisted(client), CloseSent(id, client)]);
      LooksThen(m, e, gate, w.looks(k), CloseSubmitted);
  }

  /**
    Managing a position that sends nothing, by what is known of it: no fill, an observation
    that raises, a working close, a rule of the other direction, an exit that does not fire,
    and one that fires without authority or without a price.
  */
  lemma ManagedReads(m: Means, b: Book, gate: ExecutionState, id: Id, snap: Snapshot, w: World, k: nat)
    requires id in b.ledger.positions && b.ledger.positions[id].state in {Open, Closing}
    ensures
      var p, x, o := b.ledger.positions[id], snap.exits(id), ManagedBy(m, b, gate, id, snap, w, k);
      var found := x.currentValue.None? || (x.invalidation.Some? && x.invalidation.value.source != x.underlyingSource);
      var raises := w.fault(id) == AtRecord || Exits.Disagrees(x);
      var left := Outcome(o.book, if found then NoNewRisk else gate, o.action);
      if p.debit.None? then
        InIncident(o.book.ledger, id) && o.gate == gate && o.action == Some(PositionReview)
      else if w.fault(id) == AtObservation then o == Outcome(b, gate, None)
      else if p.state == Closing then o == Outcome(b, gate, Some(CloseWorking))
      else if x.dte > 7 && Exits.Disagrees(x) then
        InIncident(o.book.ledger, id) && o.gate == NoNewRisk && o.action == Some(PositionReview)
      else if FiringTrigger(b.ledger, snap, id).None? then
        && o == left && (if found then InIncident(o.book.ledger, id) else o.book == b)
        && o.action == if raises then None else Some(if found then PositionReview else PositionHeld)
      else if !m.mayWrite || x.currentValue.None? then
        && o == left && (if found then InIncident(o.book.ledger, id) else o.book == b)
        && o.action == if raises then None else Some(if !m.mayWrite then ExitSignalled else ExitBlocked)
      else true
  {
    hide Exits.EvaluateExit, Exits.Disagrees, ClosedBy;
    if b.ledger.positions[id].debit.Some? {
      var s := ExitInputs(b.ledger.positions[id], snap, id);
      Exits.AuditRaisesWhereExitCloses(s);
      SameRule(snap.exits(id), s);
      if Exits.EvaluateExit(s).Success? { DecisionReads(s); }
    }
  }

  lemma SameRule(x: Exits.Inputs, s: Exits.Inputs)
    requires s == x.(entryDebit := s.entryDebit, quantity := s.quantity)
    ensures Exits.Disagrees(s) <==> Exits.Disagrees(x)
  {
  }

  /** What a decision carries besides its trigger. */
  lemma DecisionReads(s: Exits.Inputs)
    requires Exits.EvaluateExit(s).Success?
    ensures var d := Exits.EvaluateExit(s).value;
      var unverifiable := s.invalidation.Some? && s.invalidation.value.source != s.underlyingSource;
      && d.valueUnmeasurable == s.currentValue.None? && d.invalidationUnverifiable == unverifiable
      && (d.suggestedLimit.Some? <==> d.shouldClose && s.currentValue.Some?)
      && (!d.shouldClose ==> (d.trigger == Exits.Unmeasurable <==> s.currentValue.None? || unverifiable))
  {
    hide Exits.StopLevel, Exits.ProfitTarget;
  }

  lemma OnlyElement(ids: seq<Id>, id: Id)
    requires multiset(ids) == multiset([id])
    ensures ids == [id]
  {
    assert |multiset(ids)| == 1;
    assert ids[0] in multiset(ids);
  }

  /** What the deadline pass did. */
  lemma DeadlinesAre(m: Means, b: Book, gate: ExecutionState, w: World, k: nat, o: Outcome, asked: seq<OrderId>,
                     d: Book, ids: seq<Id>)
    requires Consistent(b) && Consistent(d) && ListsManaged(b.ledger, ids) && Enforced(b, d, ids, w.now, w.cancel)
    requires o == ThenLooked(m, d, if Halting(b.ledger, ids, w) then NoNewRisk else gate, w.looks(k), DeadlineAction)
    requires Asked(b.ledger, ids, w, asked)
    ensures EnforcedThenLooked(m, b, gate, w, k, o, asked)
  {
    hide Consistent, ListsManaged, Enforced, ThenLooked, Halting, Asked;
    assert DeadlinesDid(m, b, gate, w, k, o, asked, d, ids);
  }

  /** A client id prepared before is refused, and nothing is sent. */
  lemma RefusedTwice(m: Means, b: Book, gate: ExecutionState, client: ClientId, w: World, k: nat)
    requires client in b.ledger.intents
    ensures PersistedEntryBy(m, b, gate, client, w, k) == Outcome(b, gate, Some(EntryRefused))
  {
  }

  lemma LiveIsARow(l: Ledger, id: Id)
    requires IsLive(l, id)
    ensures id in l.positions
  {
  }

  lemma NeverDeadline(hasStore: bool, mayWrite: bool, b: Book, halted: bool, w: World)
    requires w.observed.Some?
    ensures DeadlineAction !in OpenMarketAnswers(hasStore, mayWrite, b, halted, w)
  {
  }

  // ------------------------------------------------------------------ what stays stuck

  lemma StuckSelf(b: Book, w: World, but: set<Id>)
    ensures KeepsStuck(b, b, w, but)
  {
    hide In, Unshown;
  }

  lemma StuckChain(a: Book, b: Book, c: Book, w: World, but: set<Id>)
    requires KeepsStuck(a, b, w, but) && KeepsStuck(b, c, w, but)
    ensures KeepsStuck(a, c, w, but)
  {
    hide In, Unshown;
    forall id, how | id !in but && In(a.ledger, id, how) && Unshown(w, id, how) ensures StillIn(a, c, id, how) {
      assert StillIn(a, b, id, how) && StillIn(b, c, id, how);
      ClosesNever(a, b, c, id);
    }
  }

  lemma StuckWider(b: Book, c: Book, w: World, but: set<Id>)
    requires KeepsStuck(b, c, w, {})
    ensures KeepsStuck(b, c, w, but)
  {
    hide In, Unshown, StillIn;
  }

  lemma SparesStuck(b: Book, c: Book, w: World, x: Id)
    requires Spares(b, c, x) && Consistent(c)
    ensures KeepsStuck(b, c, w, {x})
  {
    hide Consistent, Unshown;
    forall id, how | id != x && In(b.ledger, id, how) ensures StillIn(b, c, id, how) {
      InIsARow(b.ledger, id, how);
      assert Untouched(b.ledger, c.ledger, id);
      RowOf(c, id);
      UntouchedStaysIn(b.ledger, c.ledger, id, how);
    }
  }

  /** The row that had its turn was not a stuck one. */
  lemma NotStuckHere(b: Book, c: Book, w: World, id: Id)
    requires KeepsStuck(b, c, w, {id}) && Valuable(b.ledger, id) && !Waits(b.ledger, w, id)
    ensures KeepsStuck(b, c, w, {})
  {
    forall how ensures !(In(b.ledger, id, how) && Unshown(w, id, how)) {
    }
    hide In, Unshown, StillIn;
  }

  lemma LookIsQuiet(b: Book, w: World, k: nat)
    requires Consistent(b)
    ensures Moves(b, AfterLook(b, w.looks(k))) && !SendsClose(b, AfterLook(b, w.looks(k)))
    ensures KeepsStuck(b, AfterLook(b, w.looks(k)), w, {})
  {
    var look := w.looks(k);
    var c := AfterLook(b, look);
    if look.Reached? {
      ManagedIdsList(b.ledger);
      PassSendsNothing(b, ManagedIds(b.ledger), look.sight);
    }
    forall id, how | In(b.ledger, id, how) && Unshown(w, id, how) ensures StillIn(b, c, id, how) {
      assert Silent(w.looks(k), id, how);
      LookStaysIn(b, look, id, how);
    }
    MovesPrefix(b, c);
  }

  lemma EnforcedStuck(b: Book, c: Book, ids: seq<Id>, w: World)
    requires Consistent(b) && Consistent(c) && Enforced(b, c, ids, w.now, w.cancel)
    ensures KeepsStuck(b, c, w, {})
  {
    hide Unshown, In, Consistent, EnforcedRows;
    forall id, how | In(b.ledger, id, how) ensures StillIn(b, c, id, how) {
      EnforcedStaysIn(b, c, ids, w.now, w.cancel, id, how);
    }
  }

  lemma BareStuck(b: Book, client: ClientId, w: World)
    ensures KeepsStuck(b, AfterSend(b, OpenSent(client)), w, {})
  {
    hide In, Unshown;
  }

  /** Everything since an entry was prepared, seen from before it. */
  lemma PreparedStuck(b: Book, client: ClientId, sent: seq<Event>, c: Book, d: Book, w: World)
    requires Consistent(b) && Consistent(c) && (sent == [] || sent == [OpenSent(client)])
    requires c.ledger == AfterPrepareEntry(b, client).ledger && c.events == b.events + [Persisted(client)] + sent
    requires KeepsStuck(c, d, w, {b.ledger.next})
    ensures KeepsStuck(b, d, w, {})
  {
    var x := b.ledger.next;
    PrepareEntrySpares(b, client);
    assert Spares(b, c, x) by { hide Untouched; }
    SparesStuck(b, c, w, x);
    StuckChain(b, c, d, w, {x});
    PrepareEntrySound(b, client);
    hide Consistent, KeepsStuck;
    FreshIsNotStuck(b, d, w, x);
  }

  lemma FreshIsNotStuck(b: Book, d: Book, w: World, x: Id)
    requires KeepsStuck(b, d, w, {x}) && x !in b.ledger.positions
    ensures KeepsStuck(b, d, w, {})
  {
    forall how ensures !In(b.ledger, x, how) {
    }
    hide In, Unshown, StillIn;
  }

  // ------------------------------------------------------------------ sending one close

  /** The close is committed. */
  lemma PreparedClose(b: Book, id: Id, client: ClientId, w: World)
    requires Consistent(b) && id in b.ledger.positions && b.ledger.positions[id].state in {Open, Incident}
    requires client !in b.ledger.intents
    ensures var c := AfterPrepareClose(b, id, client);
      && Consistent(c) && Owns(c.ledger, id, b.ledger.next)
      && ClosesOnceEach(b, c, [id]) && !SendsClose(b, c) && KeepsStuck(b, c, w, {id})
      && var d := AfterSend(c, CloseSent(id, client));
         Consistent(d) && ClosesOnceEach(b, d, [id]) && SendsClose(b, d) && KeepsStuck(b, d, w, {id})
  {
    hide Consistent, KeepsStuck, Moves, Spares;
    CloseSentKeeps(b, id, client);
    var c := AfterPrepareClose(b, id, client);
    var d := AfterSend(c, CloseSent(id, client));
    PrepareCloseSpares(b, id, client);
    SendSpares(c, CloseSent(id, client), id);
    SparesChain(b, c, d, id);
    SparesStuck(b, c, w, id);
    SparesStuck(b, d, w, id);
    assert d.events[|d.events| - 1].CloseSent?;
  }

  /** A submission's answer is recorded on an order the row owns. */
  lemma Responded(b: Book, o: OrderId, id: Id, state: OrderState, brokerId: bool, w: World)
    requires Consistent(b) && Owns(b.ledger, id, o)
    ensures var c := AfterResponse(b, o, state, brokerId, w.now);
      && Consistent(c) && ClosesOnceEach(b, c, []) && !SendsClose(b, c) && KeepsStuck(b, c, w, {id})
  {
    hide Consistent, KeepsStuck, Spares;
    ResponseKeeps(b, o, state, brokerId, w.now);
    ResponseSpares(b, o, id, state, brokerId, w.now);
    SparesStuck(b, AfterResponse(b, o, state, brokerId, w.now), w, id);
  }

  lemma LiveHere(l: Ledger, id: Id)
    requires id in l.positions && Live(l.positions[id].state)
    ensures IsLive(l, id)
  {
  }

  /** Recorded as unanswered, the close has not ended. */
  lemma StillUnended(b: Book, o: OrderId, id: Id, now: int)
    requires CloseUnended(b.ledger, id) && IsLive(b.ledger, id) && o in b.ledger.orders
    ensures var l := AfterResponse(b, o, Ambiguous, false, now).ledger; CloseUnended(l, id) && IsLive(l, id)
  {
  }

  /** An incident on a row that is not finished: it is left in one, adrift where it has a close that has not ended. */
  lemma IncidentHere(b: Book, id: Id)
    requires IsLive(b.ledger, id)
    ensures InIncident(AfterIncident(b, id).ledger, id)
    ensures CloseUnended(b.ledger, id) ==> In(AfterIncident(b, id).ledger, id, CloseAdrift)
  {
  }

  lemma AfterTheClose(b: Book, c: Book, d: Book, id: Id, w: World)
    requires ClosesOnceEach(b, c, [id]) && KeepsStuck(b, c, w, {id})
    requires ClosesOnceEach(c, d, []) && KeepsStuck(c, d, w, {id})
    ensures ClosesOnceEach(b, d, [id]) && KeepsStuck(b, d, w, {id})
    ensures SendsClose(b, d) <==> SendsClose(b, c) || SendsClose(c, d)
  {
    hide ClosesOnceEach, KeepsStuck, SendsClose;
    ClosesChain(b, c, d, [id], []);
    assert [id] + [] == [id];
    StuckChain(b, c, d, w, {id});
  }

  lemma NothingSent(b: Book)
    ensures !SendsClose(b, b)
  {
  }

  lemma HasKept(b: Book, c: Book, ids: seq<Id>, all: seq<Id>)
    requires ClosesOnceEach(b, c, ids) && Has(b.ledger, all)
    ensures Has(c.ledger, all)
  {
    forall id | id in all ensures id in c.ledger.positions { KeysKept(b, c, id); }
  }

  lemma NoResults()
    ensures Ids([]) == [] && Valued([]) == 0
  {
  }

  lemma OneMore(rs: seq<Managed>, m: Managed)
    ensures Ids(rs + [m]) == Ids(rs) + [m.id]
    ensures Valued(rs + [m]) == Valued(rs) + if m.valued then 1 else 0
  {
    assert (rs + [m])[..|rs|] == rs;
  }

  lemma {:induction false} ValuedPlus(xs: seq<Managed>, ys: seq<Managed>)
    ensures Valued(xs + ys) == Valued(xs) + Valued(ys)
  {
    if ys == [] {
      assert xs + ys == xs;
    } else {
      ValuedPlus(xs, ys[..|ys| - 1]);
      assert (xs + ys)[..|xs + ys| - 1] == xs + ys[..|ys| - 1];
    }
  }

  lemma {:induction false} ValuedInsert(m: Managed, rs: seq<Managed>, key: Managed -> Key)
    ensures Valued(Insert(m, rs, key)) == Valued(rs) + if m.valued then 1 else 0
  {
    if rs == [] || Precedes(key(rs[|rs| - 1]), key(m)) {
      OneMore(rs, m);
    } else {
      ValuedInsert(m, rs[..|rs| - 1], key);
      OneMore(Insert(m, rs[..|rs| - 1], key), rs[|rs| - 1]);
    }
  }

  lemma {:induction false} ValuedSorts(rs: seq<Managed>, key: Managed -> Key)
    ensures Valued(SortBy(rs, key)) == Valued(rs)
  {
    if rs != [] {
      ValuedSorts(rs[..|rs| - 1], key);
      ValuedInsert(rs[|rs| - 1], SortBy(rs[..|rs| - 1], key), key);
    }
  }

  lemma {:induction false} ValuedBound(rs: seq<Managed>)
    ensures Valued(rs) <= |rs|
  {
    if rs != [] { ValuedBound(rs[..|rs| - 1]); }
  }

  lemma SortKeeps(rs: seq<Managed>, key: Managed -> Key)
    requires Managing(rs)
    ensures Managing(SortBy(rs, key))
  {
    SortPermutes(rs, key);
  }

  lemma ManagingBoth(rs: seq<Managed>, more: seq<Managed>)
    requires Managing(rs) && Managing(more)
    ensures Managing(rs + more)
  {
  }

  lemma SortHas(rs: seq<Managed>, key: Managed -> Key)
    ensures forall r :: r in rs ==> r in SortBy(rs, key)
  {
    SortPermutes(rs, key);
  }

  lemma SelectDistinct(positions: seq<Id>, l: Ledger, valuable: seq<Id>)
    requires Distinct(positions) && multiset(valuable) == multiset(Select(positions, l, true))
    ensures Distinct(valuable)
  {
    hide Select;
    SelectSplits(positions, l);
    forall i, j | 0 <= i < j < |valuable| ensures valuable[i] != valuable[j] {
      if valuable[i] == valuable[j] {
        assert valuable == valuable[..i] + [valuable[i]] + valuable[i + 1..j] + [valuable[j]] + valuable[j + 1..];
        assert multiset(valuable)[valuable[i]] >= 2;
        CountsOnce(positions, valuable[i]);
        assert false;
      }
    }
  }

  lemma SelectHas(positions: seq<Id>, l: Ledger, valuable: seq<Id>)
    requires Has(l, positions) && multiset(valuable) == multiset(Select(positions, l, true))
    ensures Has(l, valuable)
  {
    forall id | id in valuable ensures id in l.positions {
      assert id in multiset(valuable);
      assert id in Select(positions, l, true);
    }
  }

  lemma NoStep(b: Book)
    ensures SlotStep(b, b) && !SendsOpening(b, b)
  {
  }

  lemma {:induction false} NoRevival(events: seq<Event>, more: seq<Event>)
    requires events <= more && forall k :: |events| <= k < |more| ==> !more[k].Revived?
    ensures Revivals(more) == Revivals(events)
    decreases |more|
  {
    if |more| > |events| {
      var front := more[..|more| - 1];
      assert forall k :: 0 <= k < |front| ==> front[k] == more[k];
      NoRevival(events, front);
    } else {
      assert more == events;
    }
  }

  lemma FewerLive(a: set<Id>, b: set<Id>)
    requires a <= b
    ensures |a| <= |b|
  {
    assert b == a + (b - a);
  }

  /** A write that brings nothing finished back stays within the slot and opens nothing. */
  lemma MovesStep(b: Book, c: Book)
    requires Moves(b, c)
    ensures SlotStep(b, c) && !SendsOpening(b, c)
  {
    MovesKeepsTheSlot(b, c);
    FewerLive(LiveIds(c.ledger), LiveIds(b.ledger));
    NoRevival(b.events, c.events);
  }

  lemma MovesTight(b: Book, c: Book)
    requires Moves(b, c) && Consistent(b) && Consistent(c)
    ensures Loose(c.events) == Loose(b.events)
  {
    StaysTight(b.events, c.events);
  }

  lemma EnforcedMeans(b: Book, c: Book, ids: seq<Id>, now: int, cancel: OrderId -> CancelAnswer)
    requires Consistent(b) && Enforced(b, c, ids, now, cancel)
    ensures b.events <= c.events && forall k :: |b.events| <= k < |c.events| ==> !c.events[k].OpenSent?
    ensures Revivals(b.events) <= Revivals(c.events)
  {
  }

  lemma EnforcedStep(b: Book, c: Book, ids: seq<Id>, now: int, cancel: OrderId -> CancelAnswer)
    requires Consistent(b) && Consistent(c) && ListsManaged(b.ledger, ids) && Enforced(b, c, ids, now, cancel)
    ensures SlotStep(b, c) && !SendsOpening(b, c) && Loose(c.events) == Loose(b.events)
  {
    hide Late, Judged, Consistent, Follow, Enforced, Loose, LiveIds;
    LateFillsTakeTheSlot(b, c, ids, now, cancel);
    EnforcedMeans(b, c, ids, now, cancel);
    Followed(b);
    Followed(c);
    StaysTight(b.events, c.events);
  }

  lemma Followed(b: Book)
    requires Consistent(b)
    ensures Follow(b.events).Some?
  {
  }

  lemma NoHaltAlone(b: Book, ids: seq<Id>, now: int, cancel: OrderId -> CancelAnswer, halts: bool, acted: bool)
    requires acted <==> exists id :: id in ids && (Late(b.ledger, id) || Overdue(b.ledger, id, now))
    requires halts <==> exists id :: id in ids && (Late(b.ledger, id) || Uncancelled(b.ledger, id, now, cancel))
    ensures halts ==> acted
  {
    hide Late, Overdue;
  }

  lemma DueAmong(b: Book, ids: seq<Id>, now: int)
    requires ListsManaged(b.ledger, ids)
    ensures (exists id :: id in ids && (Late(b.ledger, id) || Overdue(b.ledger, id, now))) <==>
              exists id :: Due(b.ledger, id, now)
  {
    hide Late, Overdue, Owed;
    if id :| id in ids && (Late(b.ledger, id) || Overdue(b.ledger, id, now)) { assert Due(b.ledger, id, now); }
    if id :| Due(b.ledger, id, now) { assert id in ids; }
  }

  lemma StepChain(a: Book, b: Book, c: Book)
    requires SlotStep(a, b) && SlotStep(b, c)
    ensures SlotStep(a, c) && (SendsOpening(a, c) <==> SendsOpening(a, b) || SendsOpening(b, c))
  {
    assert forall k :: 0 <= k < |b.events| ==> c.events[k] == b.events[k];
    if SendsOpening(a, b) {
      var k :| |a.events| <= k < |b.events| && b.events[k].OpenSent?;
      assert c.events[k].OpenSent?;
    }
  }

  lemma ClosesMove(b: Book, c: Book, ids: seq<Id>)
    requires ClosesOnceEach(b, c, ids)
    ensures Moves(b, c)
  {
  }

  lemma ManagingOf(positions: seq<Id>, cycle: Cycle)
    requires OneEach(positions, cycle)
    ensures Managing(cycle.results)
  {
  }

  lemma NoneLive(b: Book)
    requires Consistent(b) && Owned(b.ledger, true) == []
    ensures LiveIds(b.ledger) == {}
  {
    assert forall id :: id in LiveIds(b.ledger) ==> id in Active(b.ledger.ids, b.ledger, false);
  }

  lemma AtMostOne(l: Ledger, id: Id)
    ensures LiveIds(l) <= {id} ==> |LiveIds(l)| <= 1
  {
    if LiveIds(l) <= {id} { FewerLive(LiveIds(l), {id}); }
  }

  /** The row a prepared entry leaves: its order carries its number, unsent and unfilled. */
  lemma PreparedRow(b: Book, client: ClientId)
    requires Consistent(b)
    ensures var l := AfterPrepareEntry(b, client).ledger;
      && b.ledger.next in l.positions && l.positions[b.ledger.next] == Position(Pending, b.ledger.next, None, 0, None)
      && b.ledger.next in l.orders && l.orders[b.ledger.next] == NotSent(b.ledger.next, client, Entry)
  {
  }

  /** After an entry was prepared into an empty slot and perhaps sent, whatever else moved. */
  lemma PreparedThen(b: Book, client: ClientId, sent: seq<Event>, c: Book, d: Book)
    requires Consistent(b) && Consistent(c) && Consistent(d) && LiveIds(b.ledger) == {} && client !in b.ledger.intents
    requires sent == [] || sent == [OpenSent(client)]
    requires c.ledger == AfterPrepareEntry(b, client).ledger && c.events == b.events + [Persisted(client)] + sent
    requires Moves(c, d)
    ensures SlotStep(b, d) && Loose(d.events) == Loose(b.events) && LiveIds(d.ledger) <= {b.ledger.next}
    ensures SendsOpening(b, d) <==> sent != []
  {
    PreparedStep(b, client, sent, c);
    hide Consistent, Follow, Loose, SlotStep, SendsOpening;
    MovesStep(c, d);
    MovesTight(c, d);
    MovesKeepsTheSlot(c, d);
    StepChain(b, c, d);
  }

  lemma PreparedStep(b: Book, client: ClientId, sent: seq<Event>, c: Book)
    requires Consistent(b) && LiveIds(b.ledger) == {} && client !in b.ledger.intents
    requires sent == [] || sent == [OpenSent(client)]
    requires c.ledger == AfterPrepareEntry(b, client).ledger && c.events == b.events + [Persisted(client)] + sent
    ensures SlotStep(b, c) && Loose(c.events) == Loose(b.events) && LiveIds(c.ledger) == {b.ledger.next}
    ensures SendsOpening(b, c) <==> sent != []
  {
    hide Consistent, Follow, Loose, LiveIds;
    OpenSentKeeps(b, client);
    assert LiveIds(c.ledger) == {b.ledger.next};
    NoRevival(b.events, c.events);
    var p := AfterPrepareEntry(b, client);
    assert c == if sent == [] then p else AfterSend(p, OpenSent(client));
    if sent != [] { assert c.events[|c.events| - 1].OpenSent?; }
  }

  /** An opening order sent with nothing persisted. */
  lemma BareSend(b: Book, client: ClientId)
    requires Consistent(b)
    ensures var c := AfterSend(b, OpenSent(client));
      && Consistent(c) && SlotStep(b, c) && SendsOpening(b, c)
      && (Persisted(client) !in b.events ==> Loose(c.events))
  {
    var c := AfterSend(b, OpenSent(client));
    FollowOne(b.events, OpenSent(client));
    NoRevival(b.events, c.events);
    if Persisted(client) !in b.events { UnpersistedSendIsLoose(b, client); }
    assert c.events[|c.events| - 1].OpenSent?;
  }

  lemma DecisionFlags(s: Exits.Inputs)
    ensures var r := Exits.EvaluateExit(s);
      r.Success? && r.value.shouldClose ==>
        && r.value.invalidationUnverifiable == Exits.Unverifiable(s)
        && r.value.valueUnmeasurable == s.currentValue.None?
        && r.value.suggestedLimit.Some? == s.currentValue.Some?
  {
  }

  lemma SightSendsNothing(b: Book, id: Id, s: Sight)
    requires RowOk(b.ledger, id)
    ensures !SendsClose(b, AfterSight(b, id, s))
  {
  }

  lemma {:induction false} PassSendsNothing(b: Book, ids: seq<Id>, sight: Id -> Sight)
    requires Consistent(b) && Has(b.ledger, ids)
    ensures !SendsClose(b, Pass(b, ids, sight))
  {
    if ids != [] {
      var last, front := ids[|ids| - 1], ids[..|ids| - 1];
      PassSendsNothing(b, front, sight);
      var c := Pass(b, front, sight);
      KeysKept(b, c, last);
      RowOf(c, last);
      SightSendsNothing(c, last, sight(last));
      SightKeeps(c, last, sight(last));
      hide Consistent, Follow, RowOk, AfterSight, Moves;
      SendsChain(b, c, AfterSight(c, last, sight(last)));
    }
  }

  lemma SendsChain(a: Book, b: Book, c: Book)
    requires Moves(a, b) && Moves(b, c)
    ensures SendsClose(a, c) ==> SendsClose(a, b) || SendsClose(b, c)
  {
    if k :| |a.events| <= k < |c.events| && c.events[k].CloseSent? {
      if k < |b.events| { assert b.events[k].CloseSent?; }
    }
  }

  // ------------------------------------------------------- where the promises give way

  /**
    A deadline pass leaves several rows on the slot exactly when the unresolved rows and the
    given-up rows that carry a fill are several together.
  */
  lemma SecondSlotExactly(b: Book, c: Book, ids: seq<Id>, now: int, cancel: OrderId -> CancelAnswer)
    requires Consistent(b) && ListsManaged(b.ledger, ids) && Enforced(b, c, ids, now, cancel)
    ensures |LiveIds(c.ledger)| > 1 <==>
              |LiveIds(b.ledger) + (set id | id in b.ledger.positions && Late(b.ledger, id))| > 1
  {
    LateFillsTakeTheSlot(b, c, ids, now, cancel);
  }

  /** Reconciling a CLOSING row reopens it exactly when its close ended while the broker still holds a leg. */
  lemma ReopensWhenEnded(b: Book, id: Id, s: Sight)
    requires Consistent(b) && RowOk(b.ledger, id) && b.ledger.positions[id].state == Closing
    ensures var c := AfterSight(b, id, s);
      && (c.ledger.positions[id].state == Open <==> s.held > 0 && s.close.Some? && s.close.value.Read().Terminal())
      && (c.ledger.positions[id].state == Closed <==> s.held == 0)
      && (c.ledger.positions[id].state == Open ==> c.ledger.orders[b.ledger.positions[id].close.value].state.Terminal())
  {
    hide Consistent;
  }

  /**
    Through an incident, whatever raised it, the same row reopens over a close that is still
    working: exactly when the next look reads its entry as filled. The close is left as it was,
    and the journal has room for another.
  */
  lemma IncidentReopensAWorkingClose(b: Book, d: Book, look: BrokerRead, id: Id, o: OrderId)
    requires Consistent(b) && ClosingOver(b.ledger, id, o)
    requires !b.ledger.orders[o].state.Terminal() && d == AfterIncident(b, id) && Consistent(d)
    ensures var c := AfterLook(d, look);
      && (OpenOver(c.ledger, id, o) <==> Reveals(look, id))
      && (Reveals(look, id) ==>
            && c.ledger.orders[o] == b.ledger.orders[o]
            && c.ledger.positions[id].debit == look.sight(id).entry.value.average
            && Consistent(c) && id !in Follow(c.events).value.working)
  {
    hide Consistent, Follow, AfterLook, Moves, AfterSight, Reveals, OpenOver, Names, Untouched;
    ClosingIsARow(b.ledger, id, o);
    IncidentNames(b, d, id, o);
    IncidentReopens(d, look, id, o);
    if Reveals(look, id) {
      RevealedRow(d, look, id, o);
      NotWorking(AfterLook(d, look), id);
    }
  }

  lemma IncidentNames(b: Book, d: Book, id: Id, o: OrderId)
    requires Names(b.ledger, id, o) && b.ledger.positions[id].state == Closing && d == AfterIncident(b, id)
    ensures Names(d.ledger, id, o) && d.ledger.positions[id].state == Incident && d.ledger.orders == b.ledger.orders
  {
  }

  lemma RevealedSight(b: Book, id: Id, s: Sight, o: OrderId)
    requires Names(b.ledger, id, o) && b.ledger.positions[id].state == Incident && ShowsFill(s)
    ensures var l := AfterSight(b, id, s).ledger;
      && id in l.positions && l.positions[id].state == Open && l.positions[id].close == Some(o)
      && l.positions[id].debit == s.entry.value.average && o in l.orders && l.orders[o] == b.ledger.orders[o]
  {
  }

  lemma SameRow(l: Ledger, m: Ledger, id: Id, o: OrderId)
    requires Untouched(l, m, id) && RowOk(l, id) && id in l.positions && l.positions[id].close == Some(o)
    ensures id in m.positions && m.positions[id] == l.positions[id] && o in l.orders && o in m.orders
    ensures m.orders[o] == l.orders[o]
  {
  }

  /** What the look leaves of an incident whose entry it reads as filled. */
  lemma RevealedRow(b: Book, look: BrokerRead, id: Id, o: OrderId)
    requires Consistent(b) && Names(b.ledger, id, o) && b.ledger.positions[id].state == Incident && Reveals(look, id)
    ensures var l := AfterLook(b, look).ledger;
      && id in l.positions && l.positions[id].state == Open
      && l.positions[id].debit == look.sight(id).entry.value.average && o in l.orders
      && l.orders[o] == b.ledger.orders[o]
  {
    ManagedIdsList(b.ledger);
    var ids := ManagedIds(b.ledger);
    NamedIsARow(b.ledger, id, o);
    assert id in ids && Has(b.ledger, ids);
    hide AfterSight, Consistent, ManagedIds, Moves, Untouched, RowOk, Pass;
    var c := PassJudges(b, ids, look.sight, id);
    SameRow(b.ledger, c.ledger, id, o);
    RevealedSight(c, id, look.sight(id), o);
    SameRow(AfterSight(c, id, look.sight(id)).ledger, Pass(b, ids, look.sight).ledger, id, o);
  }

  lemma NotWorking(b: Book, id: Id)
    requires Consistent(b) && id in b.ledger.positions && b.ledger.positions[id].state == Open
    ensures Follow(b.events).Some? && id !in Follow(b.events).value.working
  {
    hide Follow, Sound;
  }

  /** A rule of the other direction lets the expiry guard fire and never lets its close out. */
  lemma ConflictAtExpiryNeverCloses(l: Ledger, state: ExecutionState, mayWrite: bool, w: World, snap: Snapshot, id: Id)
    requires id in l.positions && l.positions[id].state == Open && l.positions[id].debit.Some?
    requires Exits.Disagrees(ExitInputs(l.positions[id], snap, id))
    requires snap.exits(id).dte <= Exits.EXPIRY_GUARD_DTE
    ensures !CloseGoesOut(l, state, mayWrite, w, snap, id)
    ensures Exits.EvaluateExit(ExitInputs(l.positions[id], snap, id)) ==
              Success(Exits.Close(ExitInputs(l.positions[id], snap, id), Exits.ExpiryGuard))
  {
    Exits.AuditRaisesWhereExitCloses(ExitInputs(l.positions[id], snap, id));
  }
}
