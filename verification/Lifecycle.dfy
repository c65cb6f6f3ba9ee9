/**
  The durable records of `execution/lifecycle.py`: positions, their broker orders and
  the intents behind them. Every store method is one transaction. Beside the rows the
  store keeps a journal, a proof's record of what happened in which order.
*/
module Lifecycle {
  import opened Wrappers
  import opened Arrange

  type Id = nat
  type OrderId = nat

  /** The deterministic client order id, derived from everything in an intent. */
  type ClientId = nat

  datatype PositionState = Pending | Open | Closing | Closed | Abandoned | Incident

  datatype OrderState = Prepared | Submitted | PartiallyFilled | Filled | Canceled | Rejected | Expired | Ambiguous {

    predicate Terminal()
    {
      Filled? || Canceled? || Rejected? || Expired?
    }
  }

  datatype Role = Entry | Close

  datatype Order = Order(owner: Id, client: ClientId, role: Role, state: OrderState, filled: nat, average: Option<real>,
                         brokerId: bool, submittedAt: Option<int>)

  datatype Position = Position(state: PositionState, entry: OrderId, close: Option<OrderId>,
                               filled: nat, debit: Option<real>)

  /** `ids` lists the positions in recorded order; `intents` holds every client id ever prepared. */
  datatype Ledger = Ledger(ids: seq<Id>, positions: map<Id, Position>, orders: map<OrderId, Order>,
                           intents: set<ClientId>, next: nat)

  /** An authoritative read of one order, its status already mapped. */
  datatype Answer = Answer(status: OrderState, filled: nat, average: Option<real>) {

    function Read(): OrderState
    {
      if status == Submitted && filled > 0 then PartiallyFilled else status
    }
  }

  datatype Event =
    | Persisted(client: ClientId)           // an intent, its order and its row's change are committed
    | OpenSent(client: ClientId)            // an opening order reached the broker
    | CloseSent(id: Id, client: ClientId)   // a closing order reached the broker
    | Released(id: Id)                      // a close ended without flattening
    | Troubled(id: Id)                      // an incident took the row over
    | Revived(id: Id)                       // an abandoned row turned out to have filled

  datatype Book = Book(ledger: Ledger, events: seq<Event>)

  /** Everything still owed management; the others are finished. */
  predicate Live(s: PositionState)
  {
    s != Closed && s != Abandoned
  }

  function LiveIds(l: Ledger): set<Id>
  {
    set id | id in l.positions && Live(l.positions[id].state)
  }

  predicate Owns(l: Ledger, id: Id, o: OrderId)
  {
    o in l.orders && l.orders[o].owner == id
  }

  /** One row: its orders exist and are its own, and a CLOSING row names its close. */
  predicate RowOk(l: Ledger, id: Id)
  {
    && id in l.positions && id < l.next
    && Owns(l, id, l.positions[id].entry)
    && (l.positions[id].close.Some? ==> Owns(l, id, l.positions[id].close.value))
    && (l.positions[id].state == Closing ==> l.positions[id].close.Some?)
  }

  ghost predicate Sound(l: Ledger)
  {
    && Distinct(l.ids)
    && (forall id :: id in l.ids <==> id in l.positions)
    && (forall id :: id in l.positions ==> RowOk(l, id))
    && (forall o :: o in l.orders ==> o < l.next && l.orders[o].client in l.intents)
  }

  lemma RowOf(b: Book, id: Id)
    requires Consistent(b) && id in b.ledger.positions
    ensures RowOk(b.ledger, id)
  {
  }

  function Put(l: Ledger, id: Id, p: Position): Ledger
  {
    l.(positions := l.positions[id := p])
  }

  // ---------------------------------------------------------- the order of the journal

  /**
    Which intents were persisted, which were sent, and whose close is at the broker.
    `loose`: some opening order was sent with no intent of its own behind it.
  */
  datatype Trace = Trace(persisted: set<ClientId>, sent: set<ClientId>, working: set<Id>, loose: bool)

  function Next(t: Trace, e: Event): Option<Trace>
  {
    match e
    case Persisted(c) => if c in t.persisted then None else Some(t.(persisted := t.persisted + {c}))
    case OpenSent(c) =>
      Some(if c in t.persisted && c !in t.sent then t.(sent := t.sent + {c}) else t.(loose := true))
    case CloseSent(id, c) =>
      if c in t.persisted && c !in t.sent && id !in t.working then
        Some(t.(sent := t.sent + {c}, working := t.working + {id}))
      else None
    case Released(id) => Some(t.(working := t.working - {id}))
    case Troubled(id) => Some(t.(working := t.working - {id}))
    case Revived(_) => Some(t)
  }

  function Follow(events: seq<Event>): Option<Trace>
  {
    if events == [] then Some(Trace({}, {}, {}, false))
    else
      var before := Follow(events[..|events| - 1]);
      if before == None then None else Next(before.value, events[|events| - 1])
  }

  predicate Loose(events: seq<Event>)
  {
    Follow(events).Some? && Follow(events).value.loose
  }

  lemma FollowOne(events: seq<Event>, e: Event)
    requires Follow(events).Some?
    ensures Follow(events + [e]) == Next(Follow(events).value, e)
  {
    assert (events + [e])[..|events|] == events;
  }

  predicate Sends(e: Event, c: ClientId)
  {
    (e.OpenSent? || e.CloseSent?) && e.client == c
  }

  predicate FreesClose(e: Event, id: Id)
  {
    e == Released(id) || e == Troubled(id)
  }

  ghost predicate Freed(events: seq<Event>, i: int, j: int, id: Id)
  {
    exists k :: i < k < j && k < |events| && 0 <= k && FreesClose(events[k], id)
  }

  /** What a log that can be followed tells: the bookkeeping of its last state. */
  ghost predicate Reads(events: seq<Event>, t: Trace)
  {
    && (forall c :: c in t.persisted <==> Persisted(c) in events)
    && (!t.loose ==> forall c :: c in t.sent <==> exists i :: 0 <= i < |events| && Sends(events[i], c))
    && (forall i :: 0 <= i < |events| && events[i].CloseSent? && events[i].id !in t.working ==>
          Freed(events, i, |events|, events[i].id))
  }

  lemma {:induction false} ReadsOf(events: seq<Event>)
    requires Follow(events).Some?
    ensures Reads(events, Follow(events).value)
  {
    if events != [] {
      var front := events[..|events| - 1];
      var e := events[|events| - 1];
      var t, u := Follow(front).value, Follow(events).value;
      ReadsOf(front);
      assert events == front + [e];
      forall c ensures !u.loose ==> (c in u.sent <==> exists i :: 0 <= i < |events| && Sends(events[i], c)) {
        if Sends(e, c) { assert Sends(events[|events| - 1], c); }
        if c in t.sent && !u.loose {
          var i :| 0 <= i < |front| && Sends(front[i], c);
          assert Sends(events[i], c);
        }
        if i :| 0 <= i < |front| && Sends(events[i], c) { assert Sends(front[i], c); }
      }
      forall i | 0 <= i < |events| && events[i].CloseSent? && events[i].id !in u.working
        ensures Freed(events, i, |events|, events[i].id)
      {
        var id := events[i].id;
        if i == |events| - 1 {
          assert false;
        } else if id !in t.working {
          assert front[i].id == id;
          var k :| i < k < |front| && 0 <= k && FreesClose(front[k], id);
          assert FreesClose(events[k], id);
        } else {
          assert FreesClose(events[|events| - 1], id);
        }
      }
    }
  }

  /**
    The discipline of a followed log. Every close sent was persisted before, and between two
    closes of one position the first had ended or an incident had taken the row over. Unless
    the log is loose, every opening order was persisted before too, and no client id is sent
    twice.
  */
  lemma {:induction false} DisciplineOfTheJournal(events: seq<Event>, i: nat, j: nat)
    requires Follow(events).Some? && i < j < |events|
    ensures events[j].CloseSent? || (events[j].OpenSent? && !Loose(events)) ==>
              Persisted(events[j].client) in events[..j]
    ensures (events[j].OpenSent? || events[j].CloseSent?) && !Loose(events) ==> !Sends(events[i], events[j].client)
    ensures events[i].CloseSent? && events[j].CloseSent? && events[i].id == events[j].id ==>
      Freed(events, i, j, events[i].id)
    decreases |events|
  {
    var front := events[..|events| - 1];
    assert events == front + [events[|events| - 1]];
    if j < |events| - 1 {
      DisciplineOfTheJournal(front, i, j);
      assert front[..j] == events[..j] && front[i] == events[i] && front[j] == events[j];
      if Freed(front, i, j, if events[i].CloseSent? then events[i].id else 0) {
        var id := if events[i].CloseSent? then events[i].id else 0;
        var k :| i < k < j && k < |front| && 0 <= k && FreesClose(front[k], id);
        assert FreesClose(events[k], id);
      }
    } else {
      ReadsOf(front);
      assert events[..j] == front && front[i] == events[i];
      if events[i].CloseSent? && Freed(front, i, |front|, events[i].id) {
        var k :| i < k < |front| && 0 <= k && FreesClose(front[k], events[i].id);
        assert FreesClose(events[k], events[i].id);
      }
    }
  }

  // --------------------------------------------------------------------- the invariant

  /** A close at the broker is known as one: its row is CLOSING, or CLOSED since. */
  ghost predicate Tracks(l: Ledger, t: Trace)
  {
    && t.persisted <= l.intents
    && (forall id :: id in t.working ==> id in l.positions && l.positions[id].state in {Closing, Closed})
  }

  ghost predicate Consistent(b: Book)
  {
    Sound(b.ledger) && Follow(b.events).Some? && Tracks(b.ledger, Follow(b.events).value)
  }

  // ------------------------------------------------------------- what each write leaves

  /** A halting incident takes over any row that is not finished. */
  function AfterIncident(b: Book, id: Id): Book
    requires id in b.ledger.positions
  {
    var p := b.ledger.positions[id];
    if Live(p.state) then Book(Put(b.ledger, id, p.(state := Incident)), b.events + [Troubled(id)]) else b
  }

  function AfterEntry(b: Book, id: Id, state: OrderState, filled: nat, average: Option<real>): Book
    requires id in b.ledger.positions
  {
    var p := b.ledger.positions[id];
    if filled > 0 then
      Book(Put(b.ledger, id, p.(state := Open, filled := filled, debit := average)),
           if p.state == Abandoned then b.events + [Revived(id)] else b.events)
    else Book(Put(b.ledger, id, p.(state := if state.Terminal() then Abandoned else Pending)), b.events)
  }

  function AfterRelease(b: Book, id: Id): Book
    requires id in b.ledger.positions
  {
    var p := b.ledger.positions[id];
    if p.state != Closing then b
    else Book(Put(b.ledger, id, p.(state := Open, close := None)), b.events + [Released(id)])
  }

  function AfterClose(b: Book, id: Id, flat: bool, remaining: nat): Book
    requires id in b.ledger.positions
  {
    var p := b.ledger.positions[id];
    b.(ledger := Put(b.ledger, id, if flat && remaining == 0 then p.(state := Closed, filled := 0)
                                   else p.(state := Closing, filled := remaining)))
  }

  /** An authoritative order read: the only write that creates fills. */
  function AfterRead(b: Book, o: OrderId, a: Answer): Book
    requires o in b.ledger.orders
  {
    var order := b.ledger.orders[o].(state := a.Read(), filled := a.filled, average := a.average);
    b.(ledger := b.ledger.(orders := b.ledger.orders[o := order]))
  }

  /** The response to a submission; a claimed fill is recorded as SUBMITTED. */
  function AfterResponse(b: Book, o: OrderId, state: OrderState, brokerId: bool, now: int): Book
    requires o in b.ledger.orders
  {
    var seen := if state == Filled || state == PartiallyFilled then Submitted else state;
    var order := b.ledger.orders[o].(state := seen, brokerId := brokerId, submittedAt := Some(now));
    b.(ledger := b.ledger.(orders := b.ledger.orders[o := order]))
  }

  function NotSent(owner: Id, client: ClientId, role: Role): Order
  {
    Order(owner, client, role, Prepared, 0, None, false, None)
  }

  /** Intent, order and a PENDING row, committed together under fresh ids. */
  function AfterPrepareEntry(b: Book, client: ClientId): Book
  {
    var l := b.ledger;
    Book(Ledger(l.ids + [l.next], l.positions[l.next := Position(Pending, l.next, None, 0, None)],
                l.orders[l.next := NotSent(l.next, client, Entry)], l.intents + {client}, l.next + 1),
         b.events + [Persisted(client)])
  }

  function AfterPrepareClose(b: Book, id: Id, client: ClientId): Book
    requires id in b.ledger.positions
  {
    var l := b.ledger;
    Book(Ledger(l.ids, l.positions[id := l.positions[id].(state := Closing, close := Some(l.next))],
                l.orders[l.next := NotSent(id, client, Close)], l.intents + {client}, l.next + 1),
         b.events + [Persisted(client)])
  }

  function AfterSend(b: Book, e: Event): Book
  {
    b.(events := b.events + [e])
  }

  // ------------------------------------------------------------------ what each keeps

  /** One write moved at most row `id` and left every finished row, every intent and the journal's past alone. */
  ghost predicate Moves(b: Book, c: Book)
  {
    && c.ledger.ids == b.ledger.ids && c.ledger.positions.Keys == b.ledger.positions.Keys
    && c.ledger.orders.Keys >= b.ledger.orders.Keys && c.ledger.intents >= b.ledger.intents
    && b.events <= c.events
    && (forall id :: id in b.ledger.positions && !Live(b.ledger.positions[id].state) ==>
          c.ledger.positions[id] == b.ledger.positions[id])
    && (forall k :: |b.events| <= k < |c.events| ==> !c.events[k].OpenSent? && !c.events[k].Revived?)
  }

  /** Only an opening order can loosen the journal. */
  lemma {:induction false} StaysTight(events: seq<Event>, more: seq<Event>)
    requires events <= more && Follow(events).Some? && Follow(more).Some?
    requires forall k :: |events| <= k < |more| ==> !more[k].OpenSent?
    ensures Loose(more) == Loose(events)
    decreases |more|
  {
    if |more| > |events| {
      var front := more[..|more| - 1];
      assert forall k :: 0 <= k < |front| ==> front[k] == more[k];
      StaysTight(events, front);
    } else {
      assert more == events;
    }
  }

  lemma MovesSelf(b: Book)
    ensures Moves(b, b)
  {
  }

  lemma KeysKept(b: Book, c: Book, id: Id)
    requires Moves(b, c)
    ensures id in b.ledger.positions <==> id in c.ledger.positions
  {
    assert id in b.ledger.positions.Keys <==> id in c.ledger.positions.Keys;
  }

  lemma MovesChain(a: Book, b: Book, c: Book)
    requires Moves(a, b) && Moves(b, c)
    ensures Moves(a, c)
  {
    forall k | |a.events| <= k < |c.events| ensures !c.events[k].OpenSent? && !c.events[k].Revived? {
      if k < |b.events| { assert c.events[k] == b.events[k]; }
    }
  }

  /** Where nothing finished comes back, no row joins the unresolved ones. */
  lemma MovesKeepsTheSlot(b: Book, c: Book)
    requires Moves(b, c)
    ensures LiveIds(c.ledger) <= LiveIds(b.ledger)
  {
    forall id | id in LiveIds(c.ledger) ensures id in LiveIds(b.ledger) {
      assert id in b.ledger.positions.Keys;
    }
  }

  lemma PutSound(l: Ledger, id: Id, p: Position)
    requires Sound(l) && id in l.positions && p.entry == l.positions[id].entry
    requires p.close == l.positions[id].close || p.close == None
    requires p.state == Closing ==> p.close.Some?
    ensures Sound(Put(l, id, p))
  {
    var m := Put(l, id, p);
    assert m.positions.Keys == l.positions.Keys;
    assert RowOk(l, id);
    forall other | other in m.positions ensures RowOk(m, other) {
      assert RowOk(l, other);
    }
  }

  /** Rewriting one unfinished row, with the event that goes with it. */
  lemma RowKeeps(b: Book, id: Id, p: Position, more: seq<Event>)
    requires Consistent(b) && id in b.ledger.positions && Live(b.ledger.positions[id].state)
    requires p.entry == b.ledger.positions[id].entry
    requires p.close == b.ledger.positions[id].close || p.close == None
    requires p.state == Closing ==> p.close.Some?
    requires if more == [] then b.ledger.positions[id].state != Closing || p.state in {Closing, Closed}
             else more == [Troubled(id)] || more == [Released(id)]
    ensures var c := Book(Put(b.ledger, id, p), b.events + more); Consistent(c) && Moves(b, c)
  {
    hide Sound, Follow;
    var c := Book(Put(b.ledger, id, p), b.events + more);
    PutSound(b.ledger, id, p);
    if more == [] {
      assert c.events == b.events;
    } else {
      FollowOne(b.events, more[0]);
    }
    assert Tracks(c.ledger, Follow(c.events).value);
    assert c.ledger.positions.Keys == b.ledger.positions.Keys;
  }

  lemma IncidentKeeps(b: Book, id: Id)
    requires Consistent(b) && id in b.ledger.positions
    ensures Consistent(AfterIncident(b, id)) && Moves(b, AfterIncident(b, id))
  {
    var p := b.ledger.positions[id];
    if Live(p.state) { RowKeeps(b, id, p.(state := Incident), [Troubled(id)]); }
  }

  lemma EntryKeeps(b: Book, id: Id, state: OrderState, filled: nat, average: Option<real>)
    requires Consistent(b) && id in b.ledger.positions && b.ledger.positions[id].state in {Pending, Incident}
    ensures Consistent(AfterEntry(b, id, state, filled, average)) && Moves(b, AfterEntry(b, id, state, filled, average))
  {
    hide Consistent, Moves, Follow;
    var c := AfterEntry(b, id, state, filled, average);
    RowKeeps(b, id, c.ledger.positions[id], []);
    assert c == Book(Put(b.ledger, id, c.ledger.positions[id]), b.events + []);
  }

  lemma ReleaseKeeps(b: Book, id: Id)
    requires Consistent(b) && id in b.ledger.positions
    ensures Consistent(AfterRelease(b, id)) && Moves(b, AfterRelease(b, id))
  {
    var p := b.ledger.positions[id];
    if p.state == Closing { RowKeeps(b, id, p.(state := Open, close := None), [Released(id)]); }
  }

  lemma CloseKeeps(b: Book, id: Id, flat: bool, remaining: nat)
    requires Consistent(b) && id in b.ledger.positions && b.ledger.positions[id].state == Closing
    ensures Consistent(AfterClose(b, id, flat, remaining)) && Moves(b, AfterClose(b, id, flat, remaining))
  {
    var c := AfterClose(b, id, flat, remaining);
    RowKeeps(b, id, c.ledger.positions[id], []);
    assert c == Book(Put(b.ledger, id, c.ledger.positions[id]), b.events + []);
  }

  /** Rewriting one order under its own client id. */
  lemma OrderKeeps(b: Book, o: OrderId, order: Order)
    requires Consistent(b) && o in b.ledger.orders
    requires order.client == b.ledger.orders[o].client && order.owner == b.ledger.orders[o].owner
    ensures var c := b.(ledger := b.ledger.(orders := b.ledger.orders[o := order])); Consistent(c) && Moves(b, c)
  {
    hide Follow;
    var l, m := b.ledger, b.ledger.(orders := b.ledger.orders[o := order]);
    forall id | id in m.positions ensures RowOk(m, id) {
      assert RowOk(l, id);
    }
  }

  lemma ReadKeeps(b: Book, o: OrderId, a: Answer)
    requires Consistent(b) && o in b.ledger.orders
    ensures Consistent(AfterRead(b, o, a)) && Moves(b, AfterRead(b, o, a))
  {
    hide Consistent, Moves;
    OrderKeeps(b, o, AfterRead(b, o, a).ledger.orders[o]);
  }

  lemma ResponseKeeps(b: Book, o: OrderId, state: OrderState, brokerId: bool, now: int)
    requires Consistent(b) && o in b.ledger.orders
    ensures Consistent(AfterResponse(b, o, state, brokerId, now)) && Moves(b, AfterResponse(b, o, state, brokerId, now))
  {
    hide Consistent, Moves;
    OrderKeeps(b, o, AfterResponse(b, o, state, brokerId, now).ledger.orders[o]);
  }

  lemma PrepareCloseSound(b: Book, id: Id, client: ClientId)
    requires Sound(b.ledger) && id in b.ledger.positions
    ensures Sound(AfterPrepareClose(b, id, client).ledger)
  {
    var l, m := b.ledger, AfterPrepareClose(b, id, client).ledger;
    assert m.positions.Keys == l.positions.Keys;
    forall other | other in m.positions ensures RowOk(m, other) {
      assert RowOk(l, other);
    }
  }

  lemma PrepareCloseMoves(b: Book, id: Id, client: ClientId)
    requires id in b.ledger.positions && b.ledger.positions[id].state in {Open, Incident}
    ensures Moves(b, AfterPrepareClose(b, id, client))
  {
    assert AfterPrepareClose(b, id, client).ledger.positions.Keys == b.ledger.positions.Keys;
  }

  /** A close prepared for a row with none at the broker, under a new client id, and then sent, keeps the discipline. */
  lemma CloseSentKeeps(b: Book, id: Id, client: ClientId)
    requires Consistent(b) && id in b.ledger.positions && b.ledger.positions[id].state in {Open, Incident}
    requires client !in b.ledger.intents
    ensures var c := AfterPrepareClose(b, id, client);
      && Consistent(c) && Moves(b, c)
      && Consistent(AfterSend(c, CloseSent(id, client))) && Moves(b, AfterSend(c, CloseSent(id, client)))
  {
    hide Sound, Follow;
    var c := AfterPrepareClose(b, id, client);
    PrepareCloseSound(b, id, client);
    PrepareCloseMoves(b, id, client);
    FollowOne(b.events, Persisted(client));
    SentWasPersisted(b.events, client);
    FollowOne(c.events, CloseSent(id, client));
    assert Tracks(c.ledger, Follow(c.events).value);
    assert Moves(c, AfterSend(c, CloseSent(id, client)));
    MovesChain(b, c, AfterSend(c, CloseSent(id, client)));
  }

  lemma {:induction false} SentWasPersisted(events: seq<Event>, client: ClientId)
    requires Follow(events).Some?
    ensures client in Follow(events).value.sent ==> client in Follow(events).value.persisted
  {
    if events != [] { SentWasPersisted(events[..|events| - 1], client); }
  }

  lemma PrepareEntrySound(b: Book, client: ClientId)
    requires Sound(b.ledger)
    ensures b.ledger.next !in b.ledger.positions && Sound(AfterPrepareEntry(b, client).ledger)
  {
    var l, m := b.ledger, AfterPrepareEntry(b, client).ledger;
    forall id | id in l.positions ensures id != l.next { assert RowOk(l, id); }
    assert forall i :: 0 <= i < |l.ids| ==> l.ids[i] in l.positions;
    forall id | id in m.positions ensures RowOk(m, id) {
      assert id != l.next ==> RowOk(l, id);
    }
  }

  lemma PrepareEntryTakesOne(b: Book, client: ClientId)
    requires b.ledger.next !in b.ledger.positions
    ensures LiveIds(AfterPrepareEntry(b, client).ledger) == LiveIds(b.ledger) + {b.ledger.next}
  {
  }

  /** An entry prepared under a new client id, and then sent, keeps the discipline and takes one slot. */
  lemma OpenSentKeeps(b: Book, client: ClientId)
    requires Consistent(b) && client !in b.ledger.intents
    ensures var c := AfterPrepareEntry(b, client);
      && Consistent(c) && Consistent(AfterSend(c, OpenSent(client)))
      && Loose(AfterSend(c, OpenSent(client)).events) == Loose(c.events) == Loose(b.events)
      && LiveIds(c.ledger) == LiveIds(b.ledger) + {b.ledger.next}
  {
    hide Sound, Follow, LiveIds;
    var c := AfterPrepareEntry(b, client);
    PrepareEntrySound(b, client);
    PrepareEntryTakesOne(b, client);
    FollowOne(b.events, Persisted(client));
    SentWasPersisted(b.events, client);
    FollowOne(c.events, OpenSent(client));
    assert Tracks(c.ledger, Follow(c.events).value);
  }

  /** Sent without its intent persisted, an opening order leaves the journal loose for good. */
  lemma UnpersistedSendIsLoose(b: Book, client: ClientId)
    requires Consistent(b) && Persisted(client) !in b.events
    ensures var c := AfterSend(b, OpenSent(client)); Consistent(c) && Loose(c.events)
  {
    ReadsOf(b.events);
    FollowOne(b.events, OpenSent(client));
  }

  // -------------------------------------------------------------------- the store itself

  class LifecycleStore {
    var ledger: Ledger
    ghost var events: seq<Event>

    ghost function Contents(): Book
      reads this
    {
      Book(ledger, events)
    }

    /** Refuses an intent whose client id was prepared before. */
    method PrepareEntry(client: ClientId) returns (id: Option<Id>)
      modifies this
      ensures id == if client in old(ledger.intents) then None else Some(old(ledger.next))
      ensures Contents() == if id == None then old(Contents()) else AfterPrepareEntry(old(Contents()), client)
    {
      if client in ledger.intents { return None; }
      id := Some(ledger.next);
      ledger := ledger.(ids := ledger.ids + [ledger.next],
                        positions := ledger.positions[ledger.next := Position(Pending, ledger.next, None, 0, None)],
                        orders := ledger.orders[ledger.next := NotSent(ledger.next, client, Entry)],
                        intents := ledger.intents + {client}, next := ledger.next + 1);
      events := events + [Persisted(client)];
    }

    /** The client id column is unique: a second close under the same id rolls back. */
    method PrepareClose(id: Id, client: ClientId) returns (order: Option<OrderId>)
      requires id in ledger.positions
      modifies this
      ensures order == if client in old(ledger.intents) then None else Some(old(ledger.next))
      ensures Contents() == if order == None then old(Contents()) else AfterPrepareClose(old(Contents()), id, client)
    {
      if client in ledger.intents { return None; }
      order := Some(ledger.next);
      var p := ledger.positions[id].(state := Closing, close := order);
      ledger := ledger.(positions := ledger.positions[id := p],
                        orders := ledger.orders[ledger.next := NotSent(id, client, Close)],
                        intents := ledger.intents + {client}, next := ledger.next + 1);
      events := events + [Persisted(client)];
    }

    /** The journal's note that a request reached the broker. */
    ghost method Note(e: Event)
      modifies this`events
      ensures Contents() == AfterSend(old(Contents()), e)
    {
      events := events + [e];
    }

    method RecordSubmission(o: OrderId, state: OrderState, brokerId: bool, now: int)
      requires o in ledger.orders
      modifies this`ledger
      ensures Contents() == AfterResponse(old(Contents()), o, state, brokerId, now)
    {
      var seen := state;
      if state == Filled || state == PartiallyFilled { seen := Submitted; }
      var order := ledger.orders[o].(state := seen, brokerId := brokerId, submittedAt := Some(now));
      ledger := ledger.(orders := ledger.orders[o := order]);
    }

    method ApplyOrderReconciliation(o: OrderId, a: Answer) returns (state: OrderState)
      requires o in ledger.orders
      modifies this`ledger
      ensures state == a.Read() && Contents() == AfterRead(old(Contents()), o, a)
    {
      state := a.status;
      if state == Submitted && a.filled > 0 { state := PartiallyFilled; }
      var order := ledger.orders[o].(state := state, filled := a.filled, average := a.average);
      ledger := ledger.(orders := ledger.orders[o := order]);
    }

    method ApplyEntryOutcome(id: Id, state: OrderState, filled: nat, average: Option<real>)
      requires id in ledger.positions
      modifies this
      ensures Contents() == AfterEntry(old(Contents()), id, state, filled, average)
    {
      var p := ledger.positions[id];
      if filled > 0 {
        if p.state == Abandoned { events := events + [Revived(id)]; }
        p := p.(state := Open, filled := filled, debit := average);
      } else if state.Terminal() {
        p := p.(state := Abandoned);
      } else {
        p := p.(state := Pending);
      }
      ledger := Put(ledger, id, p);
    }

    method ReleaseClose(id: Id)
      requires id in ledger.positions
      modifies this
      ensures Contents() == AfterRelease(old(Contents()), id)
    {
      var p := ledger.positions[id];
      if p.state != Closing { return; }
      ledger := Put(ledger, id, p.(state := Open, close := None));
      events := events + [Released(id)];
    }

    method ApplyCloseOutcome(id: Id, flat: bool, remaining: nat)
      requires id in ledger.positions
      modifies this`ledger
      ensures Contents() == AfterClose(old(Contents()), id, flat, remaining)
      ensures id in ledger.positions && ledger.positions[id].filled == remaining
      ensures ledger.positions[id].state == if flat && remaining == 0 then Closed else Closing
    {
      var p := ledger.positions[id];
      if flat && remaining == 0 {
        p := p.(state := Closed, filled := 0);
      } else {
        p := p.(filled := remaining, state := Closing);
      }
      ledger := Put(ledger, id, p);
    }

    /** A halting incident on one position. */
    method OpenIncident(id: Id)
      requires id in ledger.positions
      modifies this
      ensures Contents() == AfterIncident(old(Contents()), id)
    {
      var p := ledger.positions[id];
      if Live(p.state) {
        ledger := Put(ledger, id, p.(state := Incident));
        events := events + [Troubled(id)];
      }
    }

    /** The rows still owed management, in recorded order. */
    method ActivePositions(includeAbandoned: bool) returns (ids: seq<Id>)
      requires Sound(ledger)
      ensures ids == Active(ledger.ids, ledger, includeAbandoned)
    {
      ids := [];
      for k := 0 to |ledger.ids|
        invariant ids == Active(ledger.ids[..k], ledger, includeAbandoned)
      {
        assert ledger.ids[..k + 1] == ledger.ids[..k] + [ledger.ids[k]];
        assert ledger.ids[k] in ledger.positions;
        var state := ledger.positions[ledger.ids[k]].state;
        if Live(state) || (includeAbandoned && state == Abandoned) { ids := ids + [ledger.ids[k]]; }
      }
      assert ledger.ids[..|ledger.ids|] == ledger.ids;
    }
  }

  lemma DistinctPlus(ids: seq<Id>, more: seq<Id>)
    requires Distinct(ids) && Distinct(more) && forall id :: id in ids ==> id !in more
    ensures Distinct(ids + more)
  {
    var all := ids + more;
    forall i, j | 0 <= i < j < |all| ensures all[i] != all[j] {
      if i < |ids| <= j {
        assert all[i] in ids && all[j] == more[j - |ids|];
        assert all[j] in more;
      }
    }
  }

  predicate Owed(l: Ledger, id: Id, includeAbandoned: bool)
  {
    id in l.positions && (Live(l.positions[id].state) || (includeAbandoned && l.positions[id].state == Abandoned))
  }

  function Active(ids: seq<Id>, l: Ledger, includeAbandoned: bool): (r: seq<Id>)
    ensures forall id :: id in r <==> id in ids && Owed(l, id, includeAbandoned)
  {
    if ids == [] then []
    else
      var last := ids[|ids| - 1];
      assert ids == ids[..|ids| - 1] + [last];
      var front := Active(ids[..|ids| - 1], l, includeAbandoned);
      if Owed(l, last, includeAbandoned) then front + [last] else front
  }

  lemma {:induction false} ActiveDistinct(ids: seq<Id>, l: Ledger, includeAbandoned: bool)
    requires Distinct(ids)
    ensures Distinct(Active(ids, l, includeAbandoned))
  {
    if ids != [] {
      ActiveDistinct(ids[..|ids| - 1], l, includeAbandoned);
      assert ids[|ids| - 1] !in ids[..|ids| - 1];
    }
  }

  ghost predicate Has(l: Ledger, ids: seq<Id>)
  {
    forall id :: id in ids ==> id in l.positions
  }

  /** Every row a reconciliation or a deadline pass looks at, each once. */
  ghost predicate ListsManaged(l: Ledger, ids: seq<Id>)
  {
    Distinct(ids) && Has(l, ids) && forall id :: id in ids <==> Owed(l, id, true)
  }

  lemma DistinctFront(ids: seq<Id>, k: nat)
    requires Distinct(ids) && k < |ids|
    ensures ids[k] !in ids[..k] && Distinct([ids[k]])
  {
  }

  lemma DistinctTail(ids: seq<Id>, k: nat)
    requires Distinct(ids) && k < |ids|
    ensures ids[k] !in ids[k + 1..]
  {
  }

  // ------------------------------------------------------------ what the writes leave

  /** The states an order ends in. */
  lemma TerminalReads(state: OrderState)
    ensures state.Terminal() <==> state in {Filled, Canceled, Rejected, Expired}
  {
  }
}
