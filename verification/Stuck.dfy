/**
  Rows that nothing moves on: a refused entry the broker cannot show, the rows a crash
  leaves between committing an intent and sending its order, and a row that an incident took
  over while its close had not ended. What every write, pass and deadline does to them.
*/
module Stuck {
  import opened Wrappers
  import opened Arrange
  import opened Lifecycle
  import opened Reconciliation
  import opened Deadlines

  /**
    `RefusedAt`: given up at that time, its order never sent and never found. `EntryUnsent`
    and `CloseUnsent`: the order is committed, and the process stopped before sending it.
    `CloseAdrift`: an incident took the row from its close, and no fill of its entry has been
    read since.
  */
  datatype Plight = RefusedAt(at: int) | EntryUnsent | CloseUnsent | CloseAdrift

  predicate In(l: Ledger, id: Id, how: Plight)
  {
    && RowOk(l, id)
    && var p := l.positions[id];
       match how
       case RefusedAt(at) => p.state == Abandoned && IsRefused(l.orders[p.entry], at)
       case EntryUnsent => p.state == Pending && l.orders[p.entry].state == Prepared
       case CloseUnsent =>
         && p.state == Closing && p.debit.Some? && p.close.value != p.entry
         && l.orders[p.close.value].state == Prepared
       case CloseAdrift =>
         && CloseUnended(l, id)
         && (p.state in {Incident, Pending} || (p.state == Abandoned && l.orders[p.entry].filled == 0))
  }

  /** The row names a close of its own that has not ended as far as the rows know. */
  predicate CloseUnended(l: Ledger, id: Id)
  {
    && RowOk(l, id)
    && var p := l.positions[id];
       p.close.Some? && p.close.value != p.entry && !l.orders[p.close.value].state.Terminal()
  }

  predicate IsRefused(order: Order, at: int)
  {
    && order.role == Entry && order.state == Ambiguous && !order.brokerId
    && order.submittedAt == Some(at) && order.filled == 0
  }

  /** What the broker shows tells nothing about the order the row waits for. */
  predicate Silent(look: BrokerRead, id: Id, how: Plight)
  {
    look.Reached? ==>
      look.sight(id).heldOut || SilentSight(look.sight(id), how)
  }

  predicate SilentSight(s: Sight, how: Plight)
  {
    match how
    case CloseUnsent => s.close == None && s.held > 0
    case CloseAdrift => !ShowsFill(s)
    case _ => s.entry == None
  }

  /** The broker shows the entry order, with a fill. */
  predicate ShowsFill(s: Sight)
  {
    s.entry.Some? && s.entry.value.filled > 0
  }

  ghost predicate ClosesIts(b: Book, c: Book, id: Id)
  {
    exists k :: |b.events| <= k < |c.events| && c.events[k].CloseSent? && c.events[k].id == id
  }

  // ------------------------------------------------------------------- the crash windows

  /** A crash between committing an entry and sending it leaves exactly such a row. */
  lemma EntryCrashWindow(b: Book, client: ClientId)
    requires Consistent(b)
    ensures In(AfterPrepareEntry(b, client).ledger, b.ledger.next, EntryUnsent)
    ensures LiveIds(AfterPrepareEntry(b, client).ledger) == LiveIds(b.ledger) + {b.ledger.next}
  {
    PrepareEntrySound(b, client);
    PrepareEntryTakesOne(b, client);
  }

  /** Committed and not yet sent, a close has not ended. */
  lemma PreparedUnended(b: Book, id: Id, client: ClientId)
    requires Consistent(b) && id in b.ledger.positions
    ensures var l := AfterPrepareClose(b, id, client).ledger; CloseUnended(l, id) && IsLive(l, id)
  {
    RowOf(b, id);
    hide Consistent;
    assert b.ledger.positions[id].entry < b.ledger.next by { OrdersBelow(b, b.ledger.positions[id].entry); }
  }

  /** And between committing a close and sending it. */
  lemma CloseCrashWindow(b: Book, id: Id, client: ClientId)
    requires Consistent(b) && id in b.ledger.positions && b.ledger.positions[id].debit.Some?
    ensures In(AfterPrepareClose(b, id, client).ledger, id, CloseUnsent)
  {
    PreparedUnended(b, id, client);
  }

  lemma OrdersBelow(b: Book, o: OrderId)
    requires Consistent(b) && o in b.ledger.orders
    ensures o < b.ledger.next
  {
  }

  // --------------------------------------------------------------------- untouched rows

  lemma UntouchedStaysIn(l: Ledger, m: Ledger, id: Id, how: Plight)
    requires In(l, id, how) && Untouched(l, m, id) && RowOk(m, id)
    ensures In(m, id, how)
  {
  }

  /** Every row but one, and its orders, is left alone; and only that one may be closed. */
  ghost predicate Spares(b: Book, c: Book, x: Id)
  {
    && b.events <= c.events
    && (forall id :: id != x && id in b.ledger.positions ==> Untouched(b.ledger, c.ledger, id))
    && (forall k :: |b.events| <= k < |c.events| && c.events[k].CloseSent? ==> c.events[k].id == x)
  }

  lemma UntouchedChain(a: Ledger, b: Ledger, c: Ledger, id: Id)
    requires Untouched(a, b, id) && Untouched(b, c, id)
    ensures Untouched(a, c, id)
  {
    forall o | Owns(a, id, o) ensures o in c.orders && c.orders[o] == a.orders[o] {
      assert Owns(b, id, o);
    }
  }

  lemma SparesChain(a: Book, b: Book, c: Book, x: Id)
    requires Spares(a, b, x) && Spares(b, c, x)
    ensures Spares(a, c, x)
  {
    forall id | id != x && id in a.ledger.positions ensures Untouched(a.ledger, c.ledger, id) {
      assert Untouched(a.ledger, b.ledger, id);
      UntouchedChain(a.ledger, b.ledger, c.ledger, id);
    }
    hide Untouched;
    forall k | |a.events| <= k < |c.events| && c.events[k].CloseSent? ensures c.events[k].id == x {
      if k < |b.events| { assert b.events[k] == c.events[k]; }
    }
  }

  lemma IncidentSpares(b: Book, x: Id)
    requires x in b.ledger.positions
    ensures Spares(b, AfterIncident(b, x), x)
  {
  }

  lemma EntrySpares(b: Book, x: Id, state: OrderState, filled: nat, average: Option<real>)
    requires x in b.ledger.positions
    ensures Spares(b, AfterEntry(b, x, state, filled, average), x)
  {
  }

  lemma ResponseSpares(b: Book, o: OrderId, x: Id, state: OrderState, brokerId: bool, now: int)
    requires Owns(b.ledger, x, o)
    ensures Spares(b, AfterResponse(b, o, state, brokerId, now), x)
  {
  }

  lemma PrepareCloseSpares(b: Book, x: Id, client: ClientId)
    requires Consistent(b) && x in b.ledger.positions
    ensures Spares(b, AfterPrepareClose(b, x, client), x)
  {
    hide Follow, RowOk;
    assert b.ledger.next !in b.ledger.orders;
  }

  lemma PrepareEntrySpares(b: Book, client: ClientId)
    requires Consistent(b)
    ensures Spares(b, AfterPrepareEntry(b, client), b.ledger.next)
  {
    hide Follow, RowOk;
    assert b.ledger.next !in b.ledger.orders;
  }

  lemma SendSpares(b: Book, e: Event, x: Id)
    requires e.CloseSent? ==> e.id == x
    ensures Spares(b, AfterSend(b, e), x)
  {
  }

  // ------------------------------------------------------------------------- the passes

  lemma OwnSightStaysIn(b: Book, id: Id, s: Sight, how: Plight)
    requires In(b.ledger, id, how)
    requires SilentSight(s, how) && RowOk(AfterSight(b, id, s).ledger, id)
    ensures In(AfterSight(b, id, s).ledger, id, how)
  {
  }

  /** No pass moves such a row while the broker tells nothing about its order. */
  lemma {:induction false} PassStaysIn(b: Book, ids: seq<Id>, sight: Id -> Sight, id: Id, how: Plight)
    requires Consistent(b) && Has(b.ledger, ids) && In(b.ledger, id, how)
    requires Silent(Reached(sight, false), id, how)
    ensures In(Pass(b, ids, sight).ledger, id, how)
  {
    hide In, AfterSight;
    if ids != [] {
      var last, front := ids[|ids| - 1], ids[..|ids| - 1];
      PassStaysIn(b, front, sight, id, how);
      var c := Pass(b, front, sight);
      KeysKept(b, c, last);
      RowOf(c, last);
      InIsARow(c.ledger, id, how);
      if !sight(last).heldOut {
        var d := AfterSight(c, last, sight(last));
        SightKeeps(c, last, sight(last));
        KeysKept(c, d, id);
        RowHere(c.ledger, id);
        RowOf(d, id);
        if last == id {
          OwnSightStaysIn(c, id, sight(id), how);
        } else {
          SightIsLocal(c, last, sight(last), id);
          UntouchedStaysIn(c.ledger, d.ledger, id, how);
        }
      }
    }
  }

  lemma InIsARow(l: Ledger, id: Id, how: Plight)
    requires In(l, id, how)
    ensures RowOk(l, id)
  {
  }

  lemma RowHere(l: Ledger, id: Id)
    requires RowOk(l, id)
    ensures id in l.positions
  {
  }

  lemma LookStaysIn(b: Book, look: BrokerRead, id: Id, how: Plight)
    requires Consistent(b) && In(b.ledger, id, how) && Silent(look, id, how)
    ensures In(AfterLook(b, look).ledger, id, how)
  {
    if look.Reached? {
      ManagedIdsList(b.ledger);
      PassStaysIn(b, ManagedIds(b.ledger), look.sight, id, how);
    }
  }

  /** No deadline pass frees such a row: its watched order was never sent, or it is given up or in an incident. */
  lemma EnforcedStaysIn(b: Book, c: Book, ids: seq<Id>, now: int, cancel: OrderId -> CancelAnswer, id: Id, how: Plight)
    requires Consistent(b) && Consistent(c) && Enforced(b, c, ids, now, cancel) && In(b.ledger, id, how)
    ensures In(c.ledger, id, how)
  {
    hide Consistent;
    assert id in c.ledger.positions.Keys;
    assert how != CloseAdrift ==> Judged(b.ledger, id, now, cancel) == b.ledger.positions[id];
    RowOf(c, id);
  }

  /** A refused entry is due from its deadline on, whatever else is. */
  lemma RefusedIsDue(l: Ledger, id: Id, at: int, now: int)
    requires In(l, id, RefusedAt(at)) && now >= at + ENTRY_DEADLINE
    ensures Owed(l, id, true) && Overdue(l, id, now)
  {
  }

  // ------------------------------------------------------------- when a late fill is read

  /**
    An abandoned row with an unfilled order becomes a late fill exactly where a pass judges
    it, finds no leg of it left over, and is shown its order with a fill.
  */
  lemma SightReadsLateFill(b: Book, id: Id, s: Sight)
    requires RowOk(b.ledger, id) && b.ledger.positions[id].state == Abandoned
    requires b.ledger.orders[b.ledger.positions[id].entry].filled == 0
    requires RowOk(AfterSight(b, id, s).ledger, id)
    ensures Late(AfterSight(b, id, s).ledger, id) <==> s.held == 0 && ShowsFill(s)
  {
  }

  ghost predicate ShowsLateFill(s: Sight)
  {
    !s.heldOut && s.held == 0 && ShowsFill(s)
  }

  /** A row whose orders the pass has not read yet is as it was. */
  lemma {:induction false} PassLeavesOthers(b: Book, ids: seq<Id>, sight: Id -> Sight, id: Id)
    requires Consistent(b) && Has(b.ledger, ids) && RowOk(b.ledger, id) && (id !in ids || sight(id).heldOut)
    ensures RowOk(Pass(b, ids, sight).ledger, id) && Untouched(b.ledger, Pass(b, ids, sight).ledger, id)
  {
    hide RowOk, AfterSight, Untouched, Follow, Sound, Tracks;
    if ids == [] {
      UntouchedSelf(b.ledger, id);
    } else {
      var last, front := ids[|ids| - 1], ids[..|ids| - 1];
      assert ids == front + [last];
      PassLeavesOthers(b, front, sight, id);
      var c := Pass(b, front, sight);
      KeysKept(b, c, last);
      RowOf(c, last);
      if !sight(last).heldOut {
        var d := AfterSight(c, last, sight(last));
        SightIsLocal(c, last, sight(last), id);
        SightKeeps(c, last, sight(last));
        RowHere(c.ledger, id);
        KeysKept(c, d, id);
        RowOf(d, id);
        UntouchedChain(b.ledger, c.ledger, d.ledger, id);
      }
    }
  }

  /**
    A pass judges a listed row once: on the row as the pass found it, and nothing it does
    later touches the row again.
  */
  lemma {:induction false} PassJudges(b: Book, ids: seq<Id>, sight: Id -> Sight, id: Id) returns (c: Book)
    requires Consistent(b) && Has(b.ledger, ids) && Distinct(ids) && id in ids && RowOk(b.ledger, id)
    requires !sight(id).heldOut
    ensures RowOk(c.ledger, id) && Untouched(b.ledger, c.ledger, id)
    ensures var d, e := AfterSight(c, id, sight(id)), Pass(b, ids, sight);
      RowOk(d.ledger, id) && RowOk(e.ledger, id) && Untouched(d.ledger, e.ledger, id)
  {
    hide RowOk, AfterSight, Untouched, Consistent, Moves;
    var last, front := ids[|ids| - 1], ids[..|ids| - 1];
    assert ids == front + [last];
    RowsOfStep(b, front, last, sight, id);
    var before := Pass(b, front, sight);
    if last == id {
      assert id !in front;
      c := before;
      PassLeavesOthers(b, front, sight, id);
      UntouchedSelf(AfterSight(c, id, sight(id)).ledger, id);
    } else {
      c := PassJudges(b, front, sight, id);
      if !sight(last).heldOut {
        SightIsLocal(before, last, sight(last), id);
        UntouchedChain(AfterSight(c, id, sight(id)).ledger, before.ledger,
                       AfterSight(before, last, sight(last)).ledger, id);
      }
    }
  }

  lemma RowsOfStep(b: Book, front: seq<Id>, last: Id, sight: Id -> Sight, id: Id)
    requires Consistent(b) && Has(b.ledger, front) && last in b.ledger.positions && RowOk(b.ledger, id)
    ensures var c := Pass(b, front, sight);
      RowOk(c.ledger, last) && RowOk(c.ledger, id) && RowOk(AfterSight(c, last, sight(last)).ledger, id)
  {
    var c := Pass(b, front, sight);
    KeysKept(b, c, last);
    KeysKept(b, c, id);
    RowOf(c, last);
    RowOf(c, id);
    hide AfterSight;
    SightKeeps(c, last, sight(last));
    var d := AfterSight(c, last, sight(last));
    KeysKept(c, d, id);
    RowOf(d, id);
  }

  lemma LateAlike(l: Ledger, m: Ledger, id: Id)
    requires RowOk(l, id) && RowOk(m, id) && Untouched(l, m, id)
    ensures Late(m, id) <==> Late(l, id)
  {
  }

  lemma GivenUpAlike(l: Ledger, m: Ledger, id: Id)
    requires RowOk(l, id) && RowOk(m, id) && Untouched(l, m, id)
    requires l.positions[id].state == Abandoned && l.orders[l.positions[id].entry].filled == 0
    ensures m.positions[id].state == Abandoned && m.orders[m.positions[id].entry].filled == 0 && !Late(m, id)
  {
  }

  /** The same over a whole pass: the next deadline pass reinstates the row exactly then. */
  lemma PassReadsLateFill(b: Book, ids: seq<Id>, sight: Id -> Sight, id: Id)
    requires Consistent(b) && Has(b.ledger, ids) && Distinct(ids) && id in ids && RowOk(b.ledger, id)
    requires b.ledger.positions[id].state == Abandoned && b.ledger.orders[b.ledger.positions[id].entry].filled == 0
    ensures Late(Pass(b, ids, sight).ledger, id) <==> ShowsLateFill(sight(id))
  {
    hide RowOk, AfterSight, Untouched, Late, Consistent, Moves;
    if sight(id).heldOut {
      PassLeavesOthers(b, ids, sight, id);
      GivenUpAlike(b.ledger, Pass(b, ids, sight).ledger, id);
    } else {
      var c := PassJudges(b, ids, sight, id);
      GivenUpAlike(b.ledger, c.ledger, id);
      SightReadsLateFill(c, id, sight(id));
      LateAlike(AfterSight(c, id, sight(id)).ledger, Pass(b, ids, sight).ledger, id);
    }
  }

  /** And for the pass the agent runs: an abandoned row is always on its list. */
  lemma LookReadsLateFill(b: Book, look: BrokerRead, id: Id)
    requires Consistent(b) && RowOk(b.ledger, id) && b.ledger.positions[id].state == Abandoned
    requires b.ledger.orders[b.ledger.positions[id].entry].filled == 0
    ensures Late(AfterLook(b, look).ledger, id) <==> look.Reached? && ShowsLateFill(look.sight(id))
  {
    ManagedIdsList(b.ledger);
    if look.Reached? { PassReadsLateFill(b, ManagedIds(b.ledger), look.sight, id); }
  }

  lemma UntouchedSelf(l: Ledger, id: Id)
    requires RowOk(l, id)
    ensures Untouched(l, l, id)
  {
  }

  lemma HeldAbandonedSight(b: Book, c: Book, last: Id, s: Sight, id: Id)
    requires RowOk(b.ledger, id) && RowOk(c.ledger, id) && RowOk(c.ledger, last)
    requires Untouched(b.ledger, c.ledger, id) && b.ledger.positions[id].state == Abandoned
    requires last == id ==> s.held > 0
    ensures Untouched(b.ledger, AfterSight(c, last, s).ledger, id)
    ensures last == id ==> Mismatched(b.ledger, id, s)
  {
    if last != id {
      SightIsLocal(c, last, s, id);
      hide AfterSight;
    }
  }

  /** A fill the broker shows on a given-up row is reported and never read: the row stays given up. */
  lemma {:induction false} HeldAbandonedRowIsLeft(b: Book, ids: seq<Id>, sight: Id -> Sight, id: Id)
    requires Consistent(b) && Has(b.ledger, ids) && RowOk(b.ledger, id)
    requires b.ledger.positions[id].state == Abandoned && sight(id).held > 0
    ensures Untouched(b.ledger, Pass(b, ids, sight).ledger, id)
    ensures id in ids ==> !Agree(b.ledger, ids, sight)
  {
    hide Consistent, Follow, Moves, RowOk, Untouched, AfterSight, Mismatched;
    if ids == [] {
      UntouchedSelf(b.ledger, id);
    } else {
      var last, front := ids[|ids| - 1], ids[..|ids| - 1];
      HeldAbandonedRowIsLeft(b, front, sight, id);
      assert ids == front + [last];
      AgreePlus(b.ledger, front, last, sight);
      var c := Pass(b, front, sight);
      KeysKept(b, c, last);
      RowHere(b.ledger, id);
      KeysKept(b, c, id);
      RowOf(c, last);
      RowOf(c, id);
      if !sight(last).heldOut { HeldAbandonedSight(b, c, last, sight(last), id); }
    }
  }

  // ------------------------------------------------- when a row reopens over its close

  /** OPEN, so that another close may go out, over a close of its own that has not ended. */
  predicate OpenOver(l: Ledger, id: Id, o: OrderId)
  {
    CloseUnended(l, id) && l.positions[id].state == Open && l.positions[id].close == Some(o)
  }

  /** The row names this close; whether it has ended is not said. */
  predicate Names(l: Ledger, id: Id, o: OrderId)
  {
    RowOk(l, id) && l.positions[id].close == Some(o) && o != l.positions[id].entry
  }

  /** CLOSING, over this close. */
  predicate ClosingOver(l: Ledger, id: Id, o: OrderId)
  {
    Names(l, id, o) && l.positions[id].state == Closing
  }

  /** A look that reads the row and finds its entry filled. */
  predicate Reveals(look: BrokerRead, id: Id)
  {
    look.Reached? && !look.sight(id).heldOut && ShowsFill(look.sight(id))
  }

  /** After the look the row stands open over its close. */
  predicate Reopens(l: Ledger, look: BrokerRead, id: Id, o: OrderId)
    requires Names(l, id, o)
  {
    && !l.orders[o].state.Terminal()
    && match l.positions[id].state
       case Pending | Incident => Reveals(look, id)
       case Open => look.Unreachable? || look.sight(id).heldOut || !Vanished(l.positions[id], look.sight(id))
       case _ => false
  }

  lemma SightReopens(b: Book, look: BrokerRead, id: Id, o: OrderId)
    requires look.Reached? && !look.sight(id).heldOut
    requires Names(b.ledger, id, o) && RowOk(AfterSight(b, id, look.sight(id)).ledger, id)
    ensures OpenOver(AfterSight(b, id, look.sight(id)).ledger, id, o) <==> Reopens(b.ledger, look, id, o)
  {
  }

  lemma UnreadReopens(l: Ledger, look: BrokerRead, id: Id, o: OrderId)
    requires Names(l, id, o)
    requires look.Unreachable? || look.sight(id).heldOut || l.positions[id].state == Closed
    ensures OpenOver(l, id, o) <==> Reopens(l, look, id, o)
  {
  }

  lemma NamedAlike(l: Ledger, m: Ledger, look: BrokerRead, id: Id, o: OrderId)
    requires Untouched(l, m, id) && RowOk(l, id) && RowOk(m, id)
    ensures Names(m, id, o) <==> Names(l, id, o)
    ensures OpenOver(m, id, o) <==> OpenOver(l, id, o)
    ensures Names(l, id, o) ==> (Reopens(m, look, id, o) <==> Reopens(l, look, id, o))
  {
  }

  /**
    Exactly when a look leaves a row open over a close that has not ended, whatever state it
    found the row in: an incident or a pending row whose entry it reads as filled, or one that
    stood so before and is as the broker shows it.
  */
  lemma LookReopens(b: Book, look: BrokerRead, id: Id, o: OrderId)
    requires Consistent(b) && Names(b.ledger, id, o)
    ensures OpenOver(AfterLook(b, look).ledger, id, o) <==> Reopens(b.ledger, look, id, o)
  {
    ManagedIdsList(b.ledger);
    var ids := ManagedIds(b.ledger);
    assert id !in ids ==> b.ledger.positions[id].state == Closed;
    assert Has(b.ledger, ids);
    hide AfterSight, Consistent, ManagedIds, Moves, Untouched, Names, OpenOver, Reopens, RowOk, Pass;
    if look.Unreachable? {
      UnreadReopens(b.ledger, look, id, o);
    } else if id !in ids || look.sight(id).heldOut {
      var c := AfterLook(b, look);
      PassLeavesOthers(b, ids, look.sight, id);
      NamedAlike(b.ledger, c.ledger, look, id, o);
      UnreadReopens(b.ledger, look, id, o);
    } else {
      var c := PassJudges(b, ids, look.sight, id);
      NamedAlike(b.ledger, c.ledger, look, id, o);
      SightReopens(c, look, id, o);
      NamedAlike(AfterSight(c, id, look.sight(id)).ledger, AfterLook(b, look).ledger, look, id, o);
    }
  }

  /** An incident over a close that has not ended reopens exactly when a look reads its entry as filled. */
  lemma IncidentReopens(b: Book, look: BrokerRead, id: Id, o: OrderId)
    requires Consistent(b) && Names(b.ledger, id, o)
    requires b.ledger.positions[id].state == Incident && !b.ledger.orders[o].state.Terminal()
    ensures OpenOver(AfterLook(b, look).ledger, id, o) <==> Reveals(look, id)
  {
    hide Consistent, AfterLook, OpenOver, Reveals, Moves;
    LookReopens(b, look, id, o);
  }

  /**
    A deadline pass makes an incident of a CLOSING row exactly when its close cannot be cancelled,
    and leaves the close.
  */
  lemma OverdueCloseIsAnIncident(b: Book, c: Book, ids: seq<Id>, now: int, cancel: OrderId -> CancelAnswer, id: Id)
    requires Consistent(b) && ListsManaged(b.ledger, ids) && Enforced(b, c, ids, now, cancel)
    requires RowOk(b.ledger, id) && b.ledger.positions[id].state == Closing
    ensures id in c.ledger.positions && c.ledger.orders == b.ledger.orders
    ensures c.ledger.positions[id] == b.ledger.positions[id].(state := c.ledger.positions[id].state)
    ensures c.ledger.positions[id].state == if Uncancelled(b.ledger, id, now, cancel) then Incident else Closing
  {
    hide Sound, Follow, EnforcedEvents;
  }

  /**
    The two together, on a CLOSING row: the call that fails to cancel its close reopens it,
    exactly when the look that follows reads its entry as filled.
  */
  lemma FailedCancelReopens(b: Book, c: Book, ids: seq<Id>, now: int, cancel: OrderId -> CancelAnswer,
                            look: BrokerRead, id: Id, o: OrderId)
    requires Consistent(b) && Consistent(c) && ListsManaged(b.ledger, ids) && Enforced(b, c, ids, now, cancel)
    requires ClosingOver(b.ledger, id, o)
    ensures OpenOver(AfterLook(c, look).ledger, id, o) <==> Uncancelled(b.ledger, id, now, cancel) && Reveals(look, id)
  {
    hide Consistent, AfterLook, ListsManaged, Enforced, Uncancelled, OpenOver, Moves, Names, Reopens, Reveals, RowOk;
    hide Owns;
    ClosingIsARow(b.ledger, id, o);
    OverdueCloseIsAnIncident(b, c, ids, now, cancel, id);
    RowOf(c, id);
    JudgedReopens(b.ledger, c.ledger, now, cancel, look, id, o);
    LookReopens(c, look, id, o);
  }

  lemma NamedIsARow(l: Ledger, id: Id, o: OrderId)
    requires Names(l, id, o)
    ensures RowOk(l, id) && id in l.positions && o in l.orders
  {
  }

  lemma ClosingIsARow(l: Ledger, id: Id, o: OrderId)
    requires ClosingOver(l, id, o)
    ensures Names(l, id, o) && RowOk(l, id) && id in l.positions && l.positions[id].state == Closing && o in l.orders
  {
  }

  lemma JudgedReopens(l: Ledger, m: Ledger, now: int, cancel: OrderId -> CancelAnswer, look: BrokerRead, id: Id,
                      o: OrderId)
    requires Names(l, id, o) && RowOk(m, id) && l.positions[id].state == Closing && m.orders == l.orders
    requires m.positions[id] == l.positions[id].(state := m.positions[id].state)
    requires m.positions[id].state == if Uncancelled(l, id, now, cancel) then Incident else Closing
    ensures Names(m, id, o)
    ensures Reopens(m, look, id, o) <==> Uncancelled(l, id, now, cancel) && Reveals(look, id)
  {
  }
}
