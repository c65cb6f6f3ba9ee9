/**
  `execution/deadline.py`: cancel what has outlived its deadline, and reinstate a row
  that was given up and turns out to have filled. The broker's answers are inputs.
*/
module Deadlines {
  import opened Wrappers
  import opened Arrange
  import opened Lifecycle

  const ENTRY_DEADLINE: int := 90
  const CLOSE_DEADLINE: int := 120

  datatype CancelAnswer = Accepted | Refused | Unknown

  function DeadlineFor(role: Role, submittedAt: int): int
  {
    submittedAt + if role == Entry then ENTRY_DEADLINE else CLOSE_DEADLINE
  }

  /** The order whose deadline governs a row. */
  function Watched(p: Position): OrderId
  {
    if p.state == Closing && p.close.Some? then p.close.value else p.entry
  }

  /** A row given up whose entry order carries a fill after all. */
  predicate Late(l: Ledger, id: Id)
  {
    RowOk(l, id) && l.positions[id].state == Abandoned && l.orders[Watched(l.positions[id])].filled > 0
  }

  /** The watched order was sent, has not ended as far as the rows know, and is past its deadline. */
  predicate Overdue(l: Ledger, id: Id, now: int)
  {
    && RowOk(l, id) && !Late(l, id)
    && var order := l.orders[Watched(l.positions[id])];
       && !order.state.Terminal() && order.state != Prepared && order.submittedAt.Some?
       && now >= DeadlineFor(order.role, order.submittedAt.value)
  }

  /** An overdue order that cannot be cancelled takes its unfinished row into an incident. */
  predicate Uncancelled(l: Ledger, id: Id, now: int, cancel: OrderId -> CancelAnswer)
  {
    && Overdue(l, id, now)
    && var o := Watched(l.positions[id]); !l.orders[o].brokerId || cancel(o) != Accepted
  }

  /** An overdue order the broker knows is asked to end, and the request is accepted. */
  predicate AsksFor(l: Ledger, id: Id, now: int, cancel: OrderId -> CancelAnswer, o: OrderId)
  {
    Overdue(l, id, now) && Watched(l.positions[id]) == o && l.orders[o].brokerId && cancel(o) == Accepted
  }

  /** What the pass makes of one row. */
  function Judged(l: Ledger, id: Id, now: int, cancel: OrderId -> CancelAnswer): Position
    requires RowOk(l, id)
  {
    var p := l.positions[id];
    if Late(l, id) then
      var order := l.orders[Watched(p)];
      p.(state := Open, filled := order.filled,
         debit := Some(if order.average.Some? then order.average.value else 0.0))
    else if Uncancelled(l, id, now, cancel) && Live(p.state) then p.(state := Incident)
    else p
  }

  ghost function LateAmong(l: Ledger, ids: seq<Id>): set<Id>
  {
    set id | id in ids && Late(l, id)
  }

  function Revivals(events: seq<Event>): nat
  {
    if events == [] then 0
    else Revivals(events[..|events| - 1]) + if events[|events| - 1].Revived? then 1 else 0
  }

  lemma RevivalsOne(events: seq<Event>, e: Event)
    ensures Revivals(events + [e]) == Revivals(events) + if e.Revived? then 1 else 0
  {
    assert (events + [e])[..|events|] == events;
  }

  /** The pass has judged the listed rows; it touched no other row, no order and no intent. */
  ghost predicate EnforcedRows(l: Ledger, m: Ledger, ids: seq<Id>, now: int, cancel: OrderId -> CancelAnswer)
    requires Sound(l)
  {
    && m == l.(positions := m.positions) && m.positions.Keys == l.positions.Keys
    && forall id :: id in l.positions ==>
         m.positions[id] == if id in ids then Judged(l, id, now, cancel) else l.positions[id]
  }

  /** It sent nothing, and journalled one revival for each late fill. */
  ghost predicate EnforcedEvents(b: Book, c: Book, ids: seq<Id>)
  {
    && b.events <= c.events
    && (forall k :: |b.events| <= k < |c.events| ==> c.events[k].Troubled? || c.events[k].Revived?)
    && Revivals(c.events) == Revivals(b.events) + |LateAmong(b.ledger, ids)|
  }

  ghost predicate Enforced(b: Book, c: Book, ids: seq<Id>, now: int, cancel: OrderId -> CancelAnswer)
    requires Consistent(b)
  {
    EnforcedRows(b.ledger, c.ledger, ids, now, cancel) && EnforcedEvents(b, c, ids)
  }

  lemma LateKeeps(b: Book, id: Id, filled: nat, average: Option<real>)
    requires Consistent(b) && id in b.ledger.positions && b.ledger.positions[id].state == Abandoned && filled > 0
    ensures Consistent(AfterEntry(b, id, Filled, filled, average))
  {
    hide Sound, Follow;
    var c := AfterEntry(b, id, Filled, filled, average);
    FollowOne(b.events, Revived(id));
    PutSound(b.ledger, id, c.ledger.positions[id]);
  }

  class DeadlineEnforcer {
    const store: LifecycleStore

    constructor (store: LifecycleStore)
      ensures this.store == store
    {
      this.store := store;
    }

    method EnforceOne(id: Id, now: int, cancel: OrderId -> CancelAnswer)
      returns (acted: bool, halts: bool, canceled: Option<OrderId>)
      requires Consistent(store.Contents()) && RowOk(store.ledger, id)
      modifies store
      ensures Consistent(store.Contents())
      ensures acted == (Late(old(store.ledger), id) || Overdue(old(store.ledger), id, now))
      ensures halts == (Late(old(store.ledger), id) || Uncancelled(old(store.ledger), id, now, cancel))
      ensures forall o: OrderId :: canceled == Some(o) <==> AsksFor(old(store.ledger), id, now, cancel, o)
      ensures store.ledger == Put(old(store.ledger), id, Judged(old(store.ledger), id, now, cancel))
      ensures store.events == old(store.events) ||
              (store.events == old(store.events) + [Troubled(id)] && !Late(old(store.ledger), id)) ||
              (store.events == old(store.events) + [Revived(id)] && Late(old(store.ledger), id))
      ensures Late(old(store.ledger), id) ==> store.events == old(store.events) + [Revived(id)]
      ensures !acted ==> store.Contents() == old(store.Contents())
    {
      hide Consistent;
      ghost var b := store.Contents();
      var p := store.ledger.positions[id];
      var o := if p.state == Closing && p.close.Some? then p.close.value else p.entry;
      var order := store.ledger.orders[o];
      assert Put(store.ledger, id, p) == store.ledger;
      if p.state == Abandoned && order.filled > 0 {
        var average := Some(if order.average.Some? then order.average.value else 0.0);
        LateKeeps(b, id, order.filled, average);
        store.OpenIncident(id);
        store.ApplyEntryOutcome(id, Filled, order.filled, average);
        return true, true, None;
      }
      if order.state.Terminal() || order.state == Prepared { return false, false, None; }
      if order.submittedAt == None || now < DeadlineFor(order.role, order.submittedAt.value) {
        return false, false, None;
      }
      halts, canceled := false, Some(o);
      if !order.brokerId || cancel(o) != Accepted {
        IncidentKeeps(b, id);
        store.OpenIncident(id);
        halts, canceled := true, None;
      }
      acted := true;
    }

    /** One pass over every row, the abandoned ones included. */
    method Enforce(now: int, cancel: OrderId -> CancelAnswer)
      returns (acted: bool, halts: bool, canceled: seq<OrderId>, ghost ids: seq<Id>)
      requires Consistent(store.Contents())
      modifies store
      ensures Consistent(store.Contents()) && ListsManaged(old(store.ledger), ids)
      ensures Enforced(old(store.Contents()), store.Contents(), ids, now, cancel)
      ensures acted <==> exists id :: id in ids && (Late(old(store.ledger), id) || Overdue(old(store.ledger), id, now))
      ensures halts <==> exists id ::
                id in ids && (Late(old(store.ledger), id) || Uncancelled(old(store.ledger), id, now, cancel))
      ensures forall o: OrderId ::
                o in canceled <==> exists id :: id in ids && AsksFor(old(store.ledger), id, now, cancel, o)
      ensures !acted ==> store.Contents() == old(store.Contents())
    {
      hide Consistent, Follow, Judged, Late, Overdue, Uncancelled, RowOk, Enforced, AsksFor;
      acted, halts, canceled := false, false, [];
      var managed := ListManaged();
      ids := managed;
      ghost var b := store.Contents();
      EnforcedNone(b, now, cancel);
      for k := 0 to |managed|
        invariant Consistent(store.Contents()) && ids == managed
        invariant Enforced(b, store.Contents(), ids[..k], now, cancel)
        invariant acted <==> exists id :: id in ids[..k] && (Late(b.ledger, id) || Overdue(b.ledger, id, now))
        invariant halts <==>
                    exists id :: id in ids[..k] && (Late(b.ledger, id) || Uncancelled(b.ledger, id, now, cancel))
        invariant forall o: OrderId ::
                    o in canceled <==> exists id :: id in ids[..k] && AsksFor(b.ledger, id, now, cancel, o)
        invariant !acted ==> store.Contents() == b
      {
        var id := managed[k];
        ghost var c := store.Contents();
        assert ids[..k + 1] == ids[..k] + [id];
        DistinctFront(ids, k);
        RowOf(b, id);
        EnforcedKeys(b, c, ids[..k], now, cancel, id);
        RowOf(c, id);
        var one, halt, ended := EnforceOne(id, now, cancel);
        AsksAlike(b, c, ids[..k], id, now, cancel);
        EnforcedPlus(b, c, store.Contents(), ids[..k], id, now, cancel);
        if one { acted := true; }
        if halt { halts := true; }
        if ended.Some? { canceled := canceled + [ended.value]; }
      }
      assert ids[..|ids|] == ids;
    }

    method ListManaged() returns (ids: seq<Id>)
      requires Consistent(store.Contents())
      ensures ListsManaged(store.ledger, ids)
    {
      ids := store.ActivePositions(true);
      ActiveDistinct(store.ledger.ids, store.ledger, true);
    }
  }

  lemma EnforcedNone(b: Book, now: int, cancel: OrderId -> CancelAnswer)
    requires Consistent(b)
    ensures Enforced(b, b, [], now, cancel)
  {
    assert LateAmong(b.ledger, []) == {};
  }

  lemma EnforcedKeys(b: Book, c: Book, ids: seq<Id>, now: int, cancel: OrderId -> CancelAnswer, id: Id)
    requires Consistent(b) && Enforced(b, c, ids, now, cancel)
    ensures id in b.ledger.positions <==> id in c.ledger.positions
  {
    assert id in b.ledger.positions.Keys <==> id in c.ledger.positions.Keys;
  }

  lemma JudgedAlike(b: Book, c: Book, ids: seq<Id>, id: Id, now: int, cancel: OrderId -> CancelAnswer)
    requires Consistent(b) && RowOk(b.ledger, id) && RowOk(c.ledger, id) && id !in ids
    requires Enforced(b, c, ids, now, cancel)
    ensures Late(c.ledger, id) <==> Late(b.ledger, id)
    ensures Overdue(c.ledger, id, now) <==> Overdue(b.ledger, id, now)
    ensures Uncancelled(c.ledger, id, now, cancel) <==> Uncancelled(b.ledger, id, now, cancel)
    ensures Judged(c.ledger, id, now, cancel) == Judged(b.ledger, id, now, cancel)
  {
    hide Consistent;
  }

  lemma AsksAlike(b: Book, c: Book, ids: seq<Id>, id: Id, now: int, cancel: OrderId -> CancelAnswer)
    requires Consistent(b) && RowOk(b.ledger, id) && RowOk(c.ledger, id) && id !in ids
    requires Enforced(b, c, ids, now, cancel)
    ensures forall o: OrderId :: AsksFor(c.ledger, id, now, cancel, o) <==> AsksFor(b.ledger, id, now, cancel, o)
  {
    JudgedAlike(b, c, ids, id, now, cancel);
    hide Consistent, Overdue;
  }

  lemma EventsPlus(b: Book, c: Book, d: Book, ids: seq<Id>, id: Id)
    requires EnforcedEvents(b, c, ids) && id !in ids
    requires if Late(b.ledger, id) then d.events == c.events + [Revived(id)]
             else d.events == c.events || d.events == c.events + [Troubled(id)]
    ensures EnforcedEvents(b, d, ids + [id])
  {
    hide Late;
    if d.events != c.events { RevivalsOne(c.events, d.events[|c.events|]); }
    var late := LateAmong(b.ledger, ids);
    assert LateAmong(b.ledger, ids + [id]) == if Late(b.ledger, id) then late + {id} else late;
  }

  lemma RowsPlus(l: Ledger, m: Ledger, ids: seq<Id>, id: Id, now: int, cancel: OrderId -> CancelAnswer)
    requires Sound(l) && RowOk(l, id) && EnforcedRows(l, m, ids, now, cancel)
    ensures EnforcedRows(l, Put(m, id, Judged(l, id, now, cancel)), ids + [id], now, cancel)
  {
    hide Sound, Judged;
    assert Put(m, id, Judged(l, id, now, cancel)).positions.Keys == m.positions.Keys;
  }

  lemma EnforcedPlus(b: Book, c: Book, d: Book, ids: seq<Id>, id: Id, now: int, cancel: OrderId -> CancelAnswer)
    requires Consistent(b) && RowOk(b.ledger, id) && RowOk(c.ledger, id) && id !in ids
    requires Enforced(b, c, ids, now, cancel)
    requires d.ledger == Put(c.ledger, id, Judged(c.ledger, id, now, cancel))
    requires if Late(c.ledger, id) then d.events == c.events + [Revived(id)]
             else d.events == c.events || d.events == c.events + [Troubled(id)]
    ensures Late(c.ledger, id) <==> Late(b.ledger, id)
    ensures Overdue(c.ledger, id, now) <==> Overdue(b.ledger, id, now)
    ensures Uncancelled(c.ledger, id, now, cancel) <==> Uncancelled(b.ledger, id, now, cancel)
    ensures Enforced(b, d, ids + [id], now, cancel)
  {
    JudgedAlike(b, c, ids, id, now, cancel);
    hide RowOk, Late, Overdue, Uncancelled, Judged, EnforcedRows, EnforcedEvents, Sound, Follow;
    RowsPlus(b.ledger, c.ledger, ids, id, now, cancel);
    EventsPlus(b, c, d, ids, id);
  }

  lemma JudgedLive(b: Book, id: Id, now: int, cancel: OrderId -> CancelAnswer)
    requires RowOk(b.ledger, id)
    ensures Live(Judged(b.ledger, id, now, cancel).state) <==> Live(b.ledger.positions[id].state) || Late(b.ledger, id)
    ensures Late(b.ledger, id) ==> !Live(b.ledger.positions[id].state) && Owed(b.ledger, id, true)
  {
  }

  /**
    What a whole pass does to the strategy slot: it gains exactly the rows that were given
    up and had filled, and every one of them is a revival in the journal.
  */
  lemma LateFillsTakeTheSlot(b: Book, c: Book, ids: seq<Id>, now: int, cancel: OrderId -> CancelAnswer)
    requires Consistent(b) && ListsManaged(b.ledger, ids) && Enforced(b, c, ids, now, cancel)
    ensures LiveIds(c.ledger) == LiveIds(b.ledger) + (set id | id in b.ledger.positions && Late(b.ledger, id))
    ensures |LiveIds(c.ledger)| == |LiveIds(b.ledger)| + Revivals(c.events) - Revivals(b.events)
  {
    hide Consistent, RowOk, Late, Judged;
    var late := set id | id in b.ledger.positions && Late(b.ledger, id);
    forall id | id in b.ledger.positions
      ensures id in LiveIds(c.ledger) <==> id in LiveIds(b.ledger) || id in late
      ensures id in late ==> id in ids && id !in LiveIds(b.ledger)
    {
      assert id in c.ledger.positions.Keys;
      RowOf(b, id);
      JudgedLive(b, id, now, cancel);
    }
    assert LateAmong(b.ledger, ids) == late;
    assert LiveIds(c.ledger) <= c.ledger.positions.Keys;
    assert LiveIds(c.ledger) == LiveIds(b.ledger) + late;
    assert LiveIds(b.ledger) !! late;
  }

  // ------------------------------------------------------------ what is due

  /** Ninety seconds for an entry and a hundred and twenty for a close, once it was sent and until it ended. */
  lemma OverdueReads(l: Ledger, id: Id, now: int)
    requires RowOk(l, id)
    ensures Overdue(l, id, now) <==>
      var p := l.positions[id];
      var order := l.orders[if p.state == Closing then p.close.value else p.entry];
      && !(p.state == Abandoned && order.filled > 0)
      && order.state in {Submitted, PartiallyFilled, Ambiguous} && order.submittedAt.Some?
      && now >= order.submittedAt.value + if order.role == Close then 120 else 90
  {
  }

  /** A late fill reinstates its row with the quantity and price of the order; what cannot be ended is an incident. */
  lemma JudgedReads(l: Ledger, id: Id, now: int, cancel: OrderId -> CancelAnswer)
    requires RowOk(l, id)
    ensures var p, q := l.positions[id], Judged(l, id, now, cancel);
      var entry := l.orders[p.entry];
      if p.state == Abandoned && entry.filled > 0 then
        q == p.(state := Open, filled := entry.filled,
                debit := Some(if entry.average.Some? then entry.average.value else 0.0))
      else if p.state in {Pending, Open, Closing, Incident} && Overdue(l, id, now) then
        var o := if p.state == Closing then p.close.value else p.entry;
        q == if l.orders[o].brokerId && cancel(o) == Accepted then p else p.(state := Incident)
      else q == p
  {
    hide Overdue;
  }
}
