/**
  `execution/reconcile.py`: the pass that compares the durable rows with the broker.
  What the broker shows of each row is an input.
*/
module Reconciliation {
  import opened Wrappers
  import opened Arrange
  import opened Lifecycle

  /**
    What one pass sees of one position: the larger leg quantity the broker holds once
    other rows took their share, whether both legs are as the row expects, and the two
    orders it can find. `heldOut`: its contracts are claimed by several live rows.
  */
  datatype Sight = Sight(heldOut: bool, held: nat, matches: bool, entry: Option<Answer>, close: Option<Answer>)

  datatype BrokerRead = Unreachable | Reached(sight: Id -> Sight, unclaimed: bool)

  // --------------------------------------------------------------------- one position

  predicate Vanished(p: Position, s: Sight)
  {
    p.state == Open && (s.held == 0 || !s.matches)
  }

  function AfterCloseSight(b: Book, id: Id, close: OrderId, s: Sight): Book
    requires id in b.ledger.positions && close in b.ledger.orders
  {
    var c := if s.close.Some? then AfterRead(b, close, s.close.value) else b;
    if s.held == 0 then AfterClose(c, id, true, 0)
    else if s.close.Some? && s.close.value.Read().Terminal() then AfterRelease(c, id)
    else AfterClose(c, id, false, s.held)
  }

  function AfterSight(b: Book, id: Id, s: Sight): Book
    requires RowOk(b.ledger, id)
  {
    var p := b.ledger.positions[id];
    if p.state == Abandoned && s.held > 0 then b
    else
      var c := if s.entry.Some? then AfterRead(b, p.entry, s.entry.value) else b;
      match p.state
      case Pending | Incident =>
        if s.entry.Some? then AfterEntry(c, id, s.entry.value.Read(), s.entry.value.filled, s.entry.value.average)
        else if b.ledger.orders[p.entry].state == Ambiguous then AfterIncident(c, id)
        else c
      case Open => if Vanished(p, s) then AfterIncident(c, id) else c
      case Closing => AfterCloseSight(c, id, p.close.value, s)
      case _ => c
  }

  /** The pass reports this position as a mismatch, which halts new risk. */
  predicate Mismatched(l: Ledger, id: Id, s: Sight)
  {
    && RowOk(l, id)
    && var p := l.positions[id];
       match p.state
       case Pending => s.entry == None && l.orders[p.entry].state == Ambiguous
       case Open => Vanished(p, s)
       case Incident => s.entry == None
       case Abandoned => s.held > 0
       case _ => false
  }

  predicate EntryAmbiguous(l: Ledger, p: Position)
  {
    p.entry in l.orders && l.orders[p.entry].state == Ambiguous
  }

  /** Every row of the list the pass may judge is as the broker shows it. */
  ghost predicate Agree(l: Ledger, ids: seq<Id>, sight: Id -> Sight)
  {
    forall id :: id in ids ==> !sight(id).heldOut && !Mismatched(l, id, sight(id))
  }

  ghost predicate AllUntouched(l: Ledger, m: Ledger, ids: seq<Id>)
  {
    forall id :: id in ids ==> Untouched(l, m, id)
  }

  lemma CloseSightKeeps(b: Book, id: Id, s: Sight)
    requires Consistent(b) && RowOk(b.ledger, id) && b.ledger.positions[id].state == Closing
    ensures var c := AfterCloseSight(b, id, b.ledger.positions[id].close.value, s); Consistent(c) && Moves(b, c)
  {
    hide Consistent, Moves;
    var close := b.ledger.positions[id].close.value;
    var c := if s.close.Some? then AfterRead(b, close, s.close.value) else b;
    MovesSelf(b);
    if s.close.Some? { ReadKeeps(b, close, s.close.value); }
    var d := AfterCloseSight(b, id, close, s);
    if s.held == 0 {
      CloseKeeps(c, id, true, 0);
    } else if s.close.Some? && s.close.value.Read().Terminal() {
      ReleaseKeeps(c, id);
    } else {
      CloseKeeps(c, id, false, s.held);
    }
    MovesChain(b, c, d);
  }

  /** One position reconciled: the discipline holds and nothing finished comes back. */
  lemma SightKeeps(b: Book, id: Id, s: Sight)
    requires Consistent(b) && RowOk(b.ledger, id)
    ensures Consistent(AfterSight(b, id, s)) && Moves(b, AfterSight(b, id, s))
  {
    hide Consistent, Moves, AfterCloseSight, AfterRead, AfterEntry, AfterIncident;
    var p := b.ledger.positions[id];
    var c := if s.entry.Some? then AfterRead(b, p.entry, s.entry.value) else b;
    MovesSelf(b);
    if s.entry.Some? {
      ReadKeeps(b, p.entry, s.entry.value);
      ReadLeavesRows(b, p.entry, s.entry.value);
    }
    RowOf(c, id);
    var d := AfterSight(b, id, s);
    if p.state in {Pending, Incident} && s.entry.Some? {
      EntryKeeps(c, id, s.entry.value.Read(), s.entry.value.filled, s.entry.value.average);
    } else if p.state == Closing {
      CloseSightKeeps(c, id, s);
    } else {
      IncidentKeeps(c, id);
      MovesSelf(c);
    }
    if d != b { MovesChain(b, c, d); }
  }

  lemma ReadLeavesRows(b: Book, o: OrderId, a: Answer)
    requires o in b.ledger.orders
    ensures AfterRead(b, o, a).ledger.positions == b.ledger.positions
  {
  }

  /** A row and the orders it owns, untouched. */
  ghost predicate Untouched(l: Ledger, m: Ledger, id: Id)
  {
    && id in l.positions && id in m.positions && m.positions[id] == l.positions[id]
    && forall o :: Owns(l, id, o) ==> o in m.orders && m.orders[o] == l.orders[o]
  }

  /** Reconciling one position leaves every other one as it is. */
  lemma SightIsLocal(b: Book, id: Id, s: Sight, other: Id)
    requires RowOk(b.ledger, id) && RowOk(b.ledger, other) && other != id
    ensures Untouched(b.ledger, AfterSight(b, id, s).ledger, other)
  {
    hide AfterCloseSight;
    if b.ledger.positions[id].state == Closing {
      var c := if s.entry.Some? then AfterRead(b, b.ledger.positions[id].entry, s.entry.value) else b;
      CloseSightIsLocal(c, id, s, other);
    }
  }

  lemma CloseSightIsLocal(b: Book, id: Id, s: Sight, other: Id)
    requires RowOk(b.ledger, id) && RowOk(b.ledger, other) && other != id && b.ledger.positions[id].state == Closing
    ensures Untouched(b.ledger, AfterCloseSight(b, id, b.ledger.positions[id].close.value, s).ledger, other)
  {
  }

  // ------------------------------------------------------------------------- the pass

  /** The pass over the first listed positions; the contested ones are left as they are. */
  ghost function Pass(b: Book, ids: seq<Id>, sight: Id -> Sight): (c: Book)
    requires Consistent(b) && Has(b.ledger, ids)
    ensures Consistent(c) && Moves(b, c)
    decreases |ids|
  {
    if ids == [] then
      MovesSelf(b);
      b
    else
      var last := ids[|ids| - 1];
      var before := Pass(b, ids[..|ids| - 1], sight);
      if sight(last).heldOut then before
      else
        KeysKept(b, before, last);
        RowOf(before, last);
        SightKeeps(before, last, sight(last));
        MovesChain(b, before, AfterSight(before, last, sight(last)));
        AfterSight(before, last, sight(last))
  }

  predicate IsLive(l: Ledger, id: Id)
  {
    id in l.positions && Live(l.positions[id].state)
  }

  /** Live rows are settled before the abandoned ones see what is left; each group in recorded order. */
  function ManagedIds(l: Ledger): seq<Id>
  {
    var owed := Active(l.ids, l, true);
    Filter(owed, (id: Id) => IsLive(l, id)) + Filter(owed, (id: Id) => !IsLive(l, id))
  }

  lemma ManagedIdsList(l: Ledger)
    requires Sound(l)
    ensures ListsManaged(l, ManagedIds(l))
  {
    var owed := Active(l.ids, l, true);
    ActiveDistinct(l.ids, l, true);
    FilterDistinct(owed, (id: Id) => IsLive(l, id));
    FilterDistinct(owed, (id: Id) => !IsLive(l, id));
    DistinctPlus(Filter(owed, (id: Id) => IsLive(l, id)), Filter(owed, (id: Id) => !IsLive(l, id)));
  }

  /** No row given up is judged before a live one, and each owed row is judged once. */
  lemma LiveOnesFirst(l: Ledger, i: nat, j: nat)
    requires Sound(l) && i < j < |ManagedIds(l)| && IsLive(l, ManagedIds(l)[j])
    ensures IsLive(l, ManagedIds(l)[i]) && ManagedIds(l)[i] != ManagedIds(l)[j]
  {
    ManagedIdsList(l);
    hide Sound, IsLive, Owed;
    var live := Filter(Active(l.ids, l, true), (id: Id) => IsLive(l, id));
    var given := Filter(Active(l.ids, l, true), (id: Id) => !IsLive(l, id));
    assert ManagedIds(l) == live + given;
    assert forall k :: 0 <= k < |live| ==> (live + given)[k] in live;
    assert forall k :: |live| <= k < |live + given| ==> (live + given)[k] in given;
  }

  /** The whole pass, as a function of the book and of what the broker shows. */
  ghost function AfterLook(b: Book, look: BrokerRead): (c: Book)
    requires Consistent(b)
    ensures Consistent(c) && Moves(b, c)
  {
    if look.Unreachable? then
      MovesSelf(b);
      b
    else
      ManagedIdsList(b.ledger);
      Pass(b, ManagedIds(b.ledger), look.sight)
  }

  /** Nothing contested, nothing mismatched, nothing unclaimed, and a broker that answered. */
  ghost predicate CleanLook(b: Book, look: BrokerRead)
  {
    look.Reached? && !look.unclaimed && Agree(b.ledger, ManagedIds(b.ledger), look.sight)
  }

  class Reconciler {
    const store: LifecycleStore

    constructor (store: LifecycleStore)
      ensures this.store == store
    {
      this.store := store;
    }

    method ReconcileOne(id: Id, s: Sight) returns (mismatch: bool)
      requires Consistent(store.Contents()) && id in store.ledger.positions
      modifies store
      ensures store.Contents() == AfterSight(old(store.Contents()), id, s)
      ensures mismatch == Mismatched(old(store.ledger), id, s)
      ensures mismatch <==>
        var p := old(store.ledger).positions[id];
        || (p.state == Open && (s.held == 0 || !s.matches)) || (p.state == Abandoned && s.held > 0)
        || (s.entry == None && (p.state == Incident || (p.state == Pending && EntryAmbiguous(old(store.ledger), p))))
    {
      RowOf(store.Contents(), id);
      hide Consistent, Follow;
      var p := store.ledger.positions[id];
      if p.state == Abandoned && s.held > 0 { return true; }
      var entryState := store.ledger.orders[p.entry].state;
      if s.entry.Some? {
        var resolved := store.ApplyOrderReconciliation(p.entry, s.entry.value);
        if p.state == Pending || p.state == Incident {
          store.ApplyEntryOutcome(id, resolved, s.entry.value.filled, s.entry.value.average);
          return false;
        }
      } else if (p.state == Pending || p.state == Incident) && entryState == Ambiguous {
        store.OpenIncident(id);
        return true;
      }
      if p.state == Open {
        if s.held == 0 || !s.matches {
          store.OpenIncident(id);
          return true;
        }
      }
      if p.state == Closing {
        ReconcileClose(id, p.close.value, s);
        return false;
      }
      mismatch := p.state == Incident;
    }

    /** A close is only complete when the broker confirms flat. */
    method ReconcileClose(id: Id, close: OrderId, s: Sight)
      requires id in store.ledger.positions && close in store.ledger.orders
      modifies store
      ensures store.Contents() == AfterCloseSight(old(store.Contents()), id, close, s)
    {
      var ended := false;
      if s.close.Some? {
        var state := store.ApplyOrderReconciliation(close, s.close.value);
        ended := state.Terminal();
      }
      if s.held == 0 {
        store.ApplyCloseOutcome(id, true, 0);
      } else if ended {
        store.ReleaseClose(id);
      } else {
        store.ApplyCloseOutcome(id, false, s.held);
      }
    }

    /** `sorted(managed, key=abandoned)` */
    method Managed() returns (ids: seq<Id>)
      requires Consistent(store.Contents())
      ensures ids == ManagedIds(store.ledger)
    {
      hide Follow, Tracks;
      var l := store.ledger;
      var owed := store.ActivePositions(true);
      ids := Filter(owed, (id: Id) => IsLive(l, id)) + Filter(owed, (id: Id) => !IsLive(l, id));
    }

    /** One pass; a broker that cannot be read changes no row and halts new risk. */
    method Reconcile(read: BrokerRead) returns (clean: bool)
      requires Consistent(store.Contents())
      modifies store
      ensures Consistent(store.Contents()) && store.Contents() == AfterLook(old(store.Contents()), read)
      ensures clean <==> CleanLook(old(store.Contents()), read)
    {
      hide Consistent, Follow, Moves, Pass, Agree, ManagedIds;
      ManagedOf(store.Contents());
      if read.Unreachable? { return false; }
      var managed := Managed();
      clean := Settle(managed, read);
    }

    /** The rows of the list in turn, each as it was when the list was made. */
    method Settle(managed: seq<Id>, read: BrokerRead) returns (clean: bool)
      requires Consistent(store.Contents()) && Distinct(managed) && Has(store.ledger, managed) && read.Reached?
      modifies store
      ensures Consistent(store.Contents()) && store.Contents() == Pass(old(store.Contents()), managed, read.sight)
      ensures clean <==> !read.unclaimed && Agree(old(store.ledger), managed, read.sight)
    {
      hide Consistent, Follow, Moves, RowOk, AfterSight, Mismatched, Untouched, AllUntouched, Agree;
      ghost var ids := managed;
      ghost var b := store.Contents();
      clean := !read.unclaimed;
      AllUntouchedSelf(b, ids);
      AgreeNone(b.ledger, read.sight);
      for k := 0 to |managed|
        invariant Has(b.ledger, ids) && ids == managed
        invariant store.Contents() == Pass(b, ids[..k], read.sight)
        invariant AllUntouched(b.ledger, store.ledger, ids[k..])
        invariant clean <==> !read.unclaimed && Agree(b.ledger, ids[..k], read.sight)
      {
        var id := managed[k];
        assert ids[..k + 1] == ids[..k] + [id] && ids[k..] == [id] + ids[k + 1..];
        assert ids[..k + 1][..k] == ids[..k];
        UntouchedHead(b.ledger, store.ledger, id, ids[k + 1..]);
        AgreePlus(b.ledger, ids[..k], id, read.sight);
        if read.sight(id).heldOut {
          clean := false;
        } else {
          ghost var before := store.Contents();
          RowOf(b, id);
          KeysKept(b, before, id);
          RowOf(before, id);
          UntouchedMismatch(b.ledger, before.ledger, id, read.sight(id));
          var mismatch := ReconcileOne(id, read.sight(id));
          if mismatch { clean := false; }
          DistinctTail(ids, k);
          StillUntouched(b, before, id, read.sight(id), ids[k + 1..]);
        }
      }
      assert ids[..|ids|] == ids;
    }
  }

  lemma AgreePlus(l: Ledger, ids: seq<Id>, id: Id, sight: Id -> Sight)
    ensures Agree(l, ids + [id], sight) <==> Agree(l, ids, sight) && !sight(id).heldOut && !Mismatched(l, id, sight(id))
  {
    hide Mismatched;
    assert forall other :: other in ids + [id] <==> other in ids || other == id;
  }

  lemma ManagedOf(b: Book)
    requires Consistent(b)
    ensures ListsManaged(b.ledger, ManagedIds(b.ledger))
  {
    ManagedIdsList(b.ledger);
  }

  lemma UntouchedHead(l: Ledger, m: Ledger, id: Id, ids: seq<Id>)
    requires AllUntouched(l, m, [id] + ids)
    ensures Untouched(l, m, id) && AllUntouched(l, m, ids)
  {
    hide Untouched;
    assert forall other :: other in [id] + ids <==> other == id || other in ids;
  }

  lemma AgreeNone(l: Ledger, sight: Id -> Sight)
    ensures Agree(l, [], sight)
  {
  }

  lemma AllUntouchedSelf(b: Book, ids: seq<Id>)
    requires Consistent(b) && Has(b.ledger, ids)
    ensures AllUntouched(b.ledger, b.ledger, ids)
  {
  }

  lemma UntouchedMismatch(l: Ledger, m: Ledger, id: Id, s: Sight)
    requires Untouched(l, m, id) && RowOk(l, id) && RowOk(m, id)
    ensures Mismatched(l, id, s) <==> Mismatched(m, id, s)
  {
  }

  lemma StillUntouched(b: Book, c: Book, id: Id, s: Sight, ids: seq<Id>)
    requires Consistent(b) && Consistent(c) && id in c.ledger.positions && id !in ids
    requires AllUntouched(b.ledger, c.ledger, ids)
    ensures RowOk(c.ledger, id) && AllUntouched(b.ledger, AfterSight(c, id, s).ledger, ids)
  {
    hide Consistent, Untouched;
    RowOf(c, id);
    forall other | other in ids ensures Untouched(b.ledger, AfterSight(c, id, s).ledger, other) {
      StillOne(b, c, id, s, other);
    }
  }

  lemma StillOne(b: Book, c: Book, id: Id, s: Sight, other: Id)
    requires Consistent(b) && Consistent(c) && RowOk(c.ledger, id) && id != other
    requires Untouched(b.ledger, c.ledger, other)
    ensures Untouched(b.ledger, AfterSight(c, id, s).ledger, other)
  {
    hide Consistent, AfterSight;
    RowOf(c, other);
    SightIsLocal(c, id, s, other);
  }

  // ------------------------------------------------------------ what one sight leaves

  /** An order as the broker reads it: its status, a fill making a submitted one partial, with quantity and price. */
  predicate ReadAs(order: Order, was: Order, a: Answer)
  {
    && order.state == (if a.status == Submitted && a.filled > 0 then PartiallyFilled else a.status)
    && order.filled == a.filled && order.average == a.average
    && order.owner == was.owner && order.client == was.client && order.role == was.role
    && order.brokerId == was.brokerId && order.submittedAt == was.submittedAt
  }

  predicate Ended(a: Answer)
  {
    a.status in {Filled, Canceled, Rejected, Expired}
  }

  /** The row that one sight leaves, for every state it finds the row in. */
  function Settled(p: Position, entry: OrderState, s: Sight): Position
  {
    match p.state
    case Pending | Incident =>
      if s.entry.Some? && s.entry.value.filled > 0 then
        p.(state := Open, filled := s.entry.value.filled, debit := s.entry.value.average)
      else if s.entry.Some? then p.(state := if Ended(s.entry.value) then Abandoned else Pending)
      else if entry == Ambiguous then p.(state := Incident)
      else p
    case Open => if s.held == 0 || !s.matches then p.(state := Incident) else p
    case Closing =>
      if s.held == 0 then p.(state := Closed, filled := 0)
      else if s.close.Some? && Ended(s.close.value) then p.(state := Open, close := None)
      else p.(filled := s.held)
    case _ => p
  }

  /** One order read and nothing else. */
  ghost predicate OnlyRead(l: Ledger, m: Ledger, o: OrderId, a: Option<Answer>)
  {
    && o in l.orders && o in m.orders && m.orders == l.orders[o := m.orders[o]]
    && if a.Some? then ReadAs(m.orders[o], l.orders[o], a.value) else m.orders[o] == l.orders[o]
  }

  lemma ReadReads(b: Book, o: OrderId, a: Answer)
    requires o in b.ledger.orders
    ensures var c := AfterRead(b, o, a);
      OnlyRead(b.ledger, c.ledger, o, Some(a)) && c.ledger.positions == b.ledger.positions
    ensures a.Read().Terminal() <==> Ended(a)
  {
  }

  lemma CloseSightReads(b: Book, id: Id, s: Sight)
    requires id in b.ledger.positions && b.ledger.positions[id].state == Closing
    requires b.ledger.positions[id].close.Some? && b.ledger.positions[id].close.value in b.ledger.orders
    ensures var o := b.ledger.positions[id].close.value;
      var c := AfterCloseSight(b, id, o, s);
      && c.ledger.positions == b.ledger.positions[id := Settled(b.ledger.positions[id], Prepared, s)]
      && OnlyRead(b.ledger, c.ledger, o, s.close)
  {
    var o := b.ledger.positions[id].close.value;
    if s.close.Some? { ReadReads(b, o, s.close.value); }
    assert b.ledger.orders[o := b.ledger.orders[o]] == b.ledger.orders;
    hide AfterRead, ReadAs;
  }

  lemma OtherSightReads(b: Book, id: Id, s: Sight)
    requires RowOk(b.ledger, id) && b.ledger.positions[id].state != Closing
    ensures var p, c := b.ledger.positions[id], AfterSight(b, id, s);
      && c.ledger.positions == b.ledger.positions[id := Settled(p, b.ledger.orders[p.entry].state, s)]
      && OnlyRead(b.ledger, c.ledger, p.entry, if p.state == Abandoned && s.held > 0 then None else s.entry)
  {
    var p := b.ledger.positions[id];
    if s.entry.Some? { ReadReads(b, p.entry, s.entry.value); }
    assert b.ledger.orders[p.entry := b.ledger.orders[p.entry]] == b.ledger.orders;
    assert b.ledger.positions[id := p] == b.ledger.positions;
    hide AfterRead, ReadAs;
  }

  /**
    What one sight leaves: its row settled, its entry order as read, and for a CLOSING row
    its close order too; no other row and no other order.
  */
  lemma SightReads(b: Book, id: Id, s: Sight)
    requires RowOk(b.ledger, id)
    ensures var p, c := b.ledger.positions[id], AfterSight(b, id, s);
      && c.ledger.positions == b.ledger.positions[id := Settled(p, b.ledger.orders[p.entry].state, s)]
      && (p.state != Closing ==>
            OnlyRead(b.ledger, c.ledger, p.entry, if p.state == Abandoned && s.held > 0 then None else s.entry))
      && (p.state == Closing ==>
            exists m :: OnlyRead(b.ledger, m, p.entry, s.entry) && OnlyRead(m, c.ledger, p.close.value, s.close))
  {
    hide AfterRead, AfterCloseSight, ReadAs, Settled;
    var p := b.ledger.positions[id];
    if p.state == Closing {
      var c := if s.entry.Some? then AfterRead(b, p.entry, s.entry.value) else b;
      if s.entry.Some? { ReadReads(b, p.entry, s.entry.value); }
      assert b.ledger.orders[p.entry := b.ledger.orders[p.entry]] == b.ledger.orders;
      assert OnlyRead(b.ledger, c.ledger, p.entry, s.entry);
      CloseSightReads(c, id, s);
      SettledClosing(p, b.ledger.orders[p.entry].state, s);
    } else {
      OtherSightReads(b, id, s);
    }
  }

  lemma SettledClosing(p: Position, entry: OrderState, s: Sight)
    requires p.state == Closing
    ensures Settled(p, entry, s) == Settled(p, Prepared, s)
  {
  }
}
