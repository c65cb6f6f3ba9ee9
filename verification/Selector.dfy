/**
  The vertical spread selector of `components.py`, and the risk governor that
  recomputes what the selector claimed.
*/
module Selector {
  import opened Wrappers
  import opened Arrange
  import opened Contracts

  const MIN_DTE: int := 14
  const MAX_DTE: int := 45
  const MAX_RELATIVE_QUOTE_SPREAD: real := 0.25
  const MAX_DEBIT_TO_WIDTH: real := 0.60
  const EXECUTION_ALLOWANCE_FRACTION: real := 0.5
  const MIN_WIDTH_FRACTION_OF_SPOT: real := 0.005
  const RISK_FRACTION_OF_EQUITY: real := 0.0075
  const CONTRACT_MULTIPLIER: real := 100.0

  datatype Quote = Quote(
    symbol: string, kind: OptionKind, expiration: int, dte: int,
    strike: real, bid: real, ask: real, delta: Option<real>)

  type Chain = seq<Quote>

  datatype Snapshot = Snapshot(price: real, equity: real, buyingPower: real, chain: Chain)

  datatype Candidate = Candidate(
    strategy: Strategy, longSymbol: string, shortSymbol: string,
    quantity: int, estimatedDebit: real, maxLoss: real)

  // --------------------------------------------------------------- one quote, one pair

  predicate Tradeable(q: Quote)
  {
    && q.bid > 0.0 && q.ask > 0.0 && q.ask >= q.bid
    && (q.ask - q.bid) / ((q.bid + q.ask) / 2.0) <= MAX_RELATIVE_QUOTE_SPREAD
  }

  predicate DeltaIn(q: Quote, low: real, high: real)
  {
    q.delta.Some? && low <= Abs(q.delta.value) <= high
  }

  predicate LongDelta(q: Quote) { DeltaIn(q, 0.55, 0.70) }
  predicate ShortDelta(q: Quote) { DeltaIn(q, 0.25, 0.40) }

  predicate Usable(q: Quote, kind: OptionKind)
  {
    q.kind == kind && MIN_DTE <= q.dte <= MAX_DTE && Tradeable(q)
  }

  function Wanted(direction: Direction): OptionKind
  {
    if direction == Bullish then Call else Put
  }

  /** The debit to assume: cross both quotes, then allow for half their own widths. */
  function CrossingDebit(long: Quote, short: Quote): real
  {
    (long.ask - short.bid)
    + CentsUp(((long.ask - long.bid) + (short.ask - short.bid)) * EXECUTION_ALLOWANCE_FRACTION)
  }

  function Width(long: Quote, short: Quote): real
  {
    Abs(long.strike - short.strike)
  }

  /** The quoted debit per unit of width, to four places. */
  function Ratio(long: Quote, short: Quote): real
    requires Width(long, short) > 0.0
  {
    HalfEven((long.ask - short.bid) / Width(long, short) * 10000.0) as real / 10000.0
  }

  /** The pair's shape and price pass every screen. */
  predicate Screened(long: Quote, short: Quote, price: real, direction: Direction)
  {
    && (if direction == Bullish then short.strike > long.strike else short.strike < long.strike)
    && Width(long, short) >= price * MIN_WIDTH_FRACTION_OF_SPOT
    && 0.0 < long.ask - short.bid < Width(long, short)
    && Ratio(long, short) <= MAX_DEBIT_TO_WIDTH
    && CrossingDebit(long, short) < Width(long, short)
  }

  datatype Key = Key(width: real, ratio: real, strike: real)

  function KeyOf(long: Quote, short: Quote): Key
    requires Width(long, short) > 0.0
  {
    Key(Width(long, short), Ratio(long, short), long.strike)
  }

  predicate Less(a: Key, b: Key)
  {
    a.width < b.width
    || (a.width == b.width && (a.ratio < b.ratio || (a.ratio == b.ratio && a.strike < b.strike)))
  }

  // --------------------------------------------------------------------- specification

  /** Every usable quote of the wanted type expires on or after it, and one expires on it. */
  predicate Nearest(chain: Chain, kind: OptionKind, expiry: int)
  {
    && (exists i :: 0 <= i < |chain| && Usable(chain[i], kind) && chain[i].expiration == expiry)
    && (forall i :: 0 <= i < |chain| && Usable(chain[i], kind) ==> expiry <= chain[i].expiration)
  }

  predicate Leg(chain: Chain, kind: OptionKind, q: Quote)
  {
    q in chain && Usable(q, kind) && Nearest(chain, kind, q.expiration)
  }

  /** A pair the selector may choose. */
  predicate Eligible(chain: Chain, price: real, direction: Direction, long: Quote, short: Quote)
  {
    && Leg(chain, Wanted(direction), long) && LongDelta(long)
    && Leg(chain, Wanted(direction), short) && ShortDelta(short)
    && Screened(long, short, price, direction)
  }

  /** No eligible pair comes before this one. */
  ghost predicate Least(chain: Chain, price: real, direction: Direction, long: Quote, short: Quote)
  {
    && Eligible(chain, price, direction, long, short)
    && forall l, s :: Eligible(chain, price, direction, l, s) ==> !Less(KeyOf(l, s), KeyOf(long, short))
  }

  function CandidateOf(direction: Direction, long: Quote, short: Quote): Candidate
  {
    Candidate(if direction == Bullish then BullCallDebitSpread else BearPutDebitSpread,
              long.symbol, short.symbol, 1, CrossingDebit(long, short),
              Cents(CrossingDebit(long, short) * CONTRACT_MULTIPLIER))
  }

  /** What the selector answers: a least eligible pair, or nothing exactly when there is none. */
  ghost predicate IsSelection(chain: Chain, price: real, direction: Direction, r: Option<Candidate>)
  {
    match r
    case None => forall l, s :: !Eligible(chain, price, direction, l, s)
    case Some(c) => exists l, s :: Least(chain, price, direction, l, s) && c == CandidateOf(direction, l, s)
  }

  // ---------------------------------------------------------------------- the selector

  function InsertByStrike(q: Quote, legs: Chain): (r: Chain)
    ensures forall x :: x in r <==> x == q || x in legs
  {
    if legs == [] || legs[|legs| - 1].strike <= q.strike then legs + [q]
    else
      assert legs == legs[..|legs| - 1] + [legs[|legs| - 1]];
      InsertByStrike(q, legs[..|legs| - 1]) + [legs[|legs| - 1]]
  }

  /** `sorted(legs, key=strike)`. */
  function ByStrike(legs: Chain): (r: Chain)
    ensures forall x :: x in r <==> x in legs
  {
    if legs == [] then []
    else
      assert legs == legs[..|legs| - 1] + [legs[|legs| - 1]];
      InsertByStrike(legs[|legs| - 1], ByStrike(legs[..|legs| - 1]))
  }

  function Earliest(legs: Chain): (e: int)
    requires legs != []
    ensures exists q :: q in legs && q.expiration == e
    ensures forall q :: q in legs ==> e <= q.expiration
  {
    if |legs| == 1 then (assert legs[0] in legs; legs[0].expiration)
    else
      var front := legs[..|legs| - 1];
      var last := legs[|legs| - 1];
      assert legs == front + [last];
      var e := Earliest(front);
      assert forall q :: q in front ==> q in legs;
      if last.expiration < e then last.expiration else e
  }

  datatype Best = Best(key: Key, long: Quote, short: Quote)

  /** A pair that the search has nothing to regret about. */
  predicate NotBefore(best: Option<Best>, l: Quote, s: Quote, price: real, direction: Direction)
  {
    Screened(l, s, price, direction) ==> best.Some? && !Less(KeyOf(l, s), best.value.key)
  }

  predicate Found(best: Option<Best>, longs: Chain, shorts: Chain, price: real, direction: Direction)
  {
    best.Some? ==>
      && best.value.long in longs && best.value.short in shorts
      && Screened(best.value.long, best.value.short, price, direction)
      && best.value.key == KeyOf(best.value.long, best.value.short)
  }

  /** The inner loop's body: the screens in order, then the comparison. */
  method Consider(best: Option<Best>, long: Quote, short: Quote, price: real, direction: Direction)
    returns (next: Option<Best>)
    ensures next == best ||
            (next.Some? && next.value.long == long && next.value.short == short &&
             Found(next, [long], [short], price, direction))
    ensures NotBefore(next, long, short, price, direction)
    ensures best.Some? ==> next.Some? && !Less(best.value.key, next.value.key)
  {
    next := best;
    var beyond := if direction == Bullish then short.strike > long.strike else short.strike < long.strike;
    if !beyond { return; }
    var width := Abs(long.strike - short.strike);
    if width < price * MIN_WIDTH_FRACTION_OF_SPOT { return; }
    var quoted := long.ask - short.bid;
    if quoted <= 0.0 || quoted >= width { return; }
    var ratio := Ratio(long, short);
    if ratio > MAX_DEBIT_TO_WIDTH { return; }
    if CrossingDebit(long, short) >= width { return; }
    var key := Key(width, ratio, long.strike);
    if best == None || Less(key, best.value.key) { next := Some(Best(key, long, short)); }
  }

  lemma StillNotBefore(best: Option<Best>, next: Option<Best>, l: Quote, s: Quote, price: real, direction: Direction)
    requires NotBefore(best, l, s, price, direction)
    requires best.Some? ==> next.Some? && !Less(best.value.key, next.value.key)
    ensures NotBefore(next, l, s, price, direction)
  {
  }

  /** The nested search over `longs` x `shorts`. */
  method Search(longs: Chain, shorts: Chain, price: real, direction: Direction) returns (best: Option<Best>)
    ensures Found(best, longs, shorts, price, direction)
    ensures forall i, j :: 0 <= i < |longs| && 0 <= j < |shorts| ==>
              NotBefore(best, longs[i], shorts[j], price, direction)
  {
    hide NotBefore, Screened;
    best := None;
    for i := 0 to |longs|
      invariant Found(best, longs, shorts, price, direction)
      invariant forall k, j :: 0 <= k < i && 0 <= j < |shorts| ==>
                  NotBefore(best, longs[k], shorts[j], price, direction)
    {
      for n := 0 to |shorts|
        invariant Found(best, longs, shorts, price, direction)
        invariant forall k, j :: 0 <= k < i && 0 <= j < |shorts| ==>
                    NotBefore(best, longs[k], shorts[j], price, direction)
        invariant forall j :: 0 <= j < n ==> NotBefore(best, longs[i], shorts[j], price, direction)
      {
        var next := Consider(best, longs[i], shorts[n], price, direction);
        forall k, j | 0 <= k < i && 0 <= j < |shorts| ensures NotBefore(next, longs[k], shorts[j], price, direction) {
          StillNotBefore(best, next, longs[k], shorts[j], price, direction);
        }
        forall j | 0 <= j < n ensures NotBefore(next, longs[i], shorts[j], price, direction) {
          StillNotBefore(best, next, longs[i], shorts[j], price, direction);
        }
        best := next;
      }
    }
  }

  lemma TwoLegs(legs: Chain, l: Quote, s: Quote)
    requires l in legs && s in legs && l.strike != s.strike
    ensures |legs| >= 2
  {
    var i :| 0 <= i < |legs| && legs[i] == l;
    var j :| 0 <= j < |legs| && legs[j] == s;
    assert i != j;
  }

  /** The legs of the nearest usable expiry, as the selector gathers them. */
  lemma LegsGathered(chain: Chain, kind: OptionKind, usable: Chain, legs: Chain, chosen: int)
    requires forall q :: q in usable <==> q in chain && Usable(q, kind)
    requires exists q :: q in usable && q.expiration == chosen
    requires forall q :: q in usable ==> chosen <= q.expiration
    requires forall q :: q in legs <==> q in usable && q.expiration == chosen
    ensures forall q :: q in legs <==> Leg(chain, kind, q)
  {
    forall i | 0 <= i < |chain| && Usable(chain[i], kind) ensures chosen <= chain[i].expiration {
      assert chain[i] in usable;
    }
    var q0 :| q0 in usable && q0.expiration == chosen;
    var i0 :| 0 <= i0 < |chain| && chain[i0] == q0;
    assert Nearest(chain, kind, chosen);
    forall q | Leg(chain, kind, q) ensures q in legs {
      assert q in usable && chosen <= q.expiration && q.expiration <= chain[i0].expiration;
    }
  }

  /** Fewer than two legs leave no pair. */
  lemma TooFewLegs(chain: Chain, price: real, direction: Direction, legs: Chain)
    requires forall q :: Leg(chain, Wanted(direction), q) ==> q in legs
    requires |legs| < 2
    ensures IsSelection(chain, price, direction, None)
  {
    forall l, s ensures !Eligible(chain, price, direction, l, s) {
      if Eligible(chain, price, direction, l, s) { TwoLegs(legs, l, s); }
    }
  }

  /** What the search over the gathered legs found is the answer. */
  lemma FoundIsSelection(chain: Chain, price: real, direction: Direction, longs: Chain, shorts: Chain,
                         best: Option<Best>)
    requires forall q :: q in longs <==> Leg(chain, Wanted(direction), q) && LongDelta(q)
    requires forall q :: q in shorts <==> Leg(chain, Wanted(direction), q) && ShortDelta(q)
    requires Found(best, longs, shorts, price, direction)
    requires forall i, j :: 0 <= i < |longs| && 0 <= j < |shorts| ==>
               NotBefore(best, longs[i], shorts[j], price, direction)
    ensures IsSelection(chain, price, direction,
                        if best == None then None else Some(CandidateOf(direction, best.value.long, best.value.short)))
  {
    hide Screened, Leg, LongDelta, ShortDelta, CandidateOf, KeyOf, Less;
    forall l, s | Eligible(chain, price, direction, l, s) ensures NotBefore(best, l, s, price, direction) {
      var i :| 0 <= i < |longs| && longs[i] == l;
      var j :| 0 <= j < |shorts| && shorts[j] == s;
    }
    if best.Some? {
      assert Least(chain, price, direction, best.value.long, best.value.short);
    }
  }

  method Select(chain: Chain, price: real, direction: Direction) returns (r: Option<Candidate>)
    ensures IsSelection(chain, price, direction, r)
  {
    hide IsSelection, Leg, Nearest, LongDelta, ShortDelta, Tradeable, NotBefore, Found;
    var kind := Wanted(direction);
    var usable := Filter(chain, (q: Quote) => Usable(q, kind));
    if |usable| < 2 {
      LegsAreUsable(chain, kind, usable);
      TooFewLegs(chain, price, direction, usable);
      return None;
    }
    var chosen := Earliest(usable);
    var legs := ByStrike(Filter(usable, (q: Quote) => q.expiration == chosen));
    LegsGathered(chain, kind, usable, legs, chosen);
    if |legs| < 2 {
      TooFewLegs(chain, price, direction, legs);
      return None;
    }
    var longs := Filter(legs, (q: Quote) => LongDelta(q));
    var shorts := Filter(legs, (q: Quote) => ShortDelta(q));
    var best := Search(longs, shorts, price, direction);
    FoundIsSelection(chain, price, direction, longs, shorts, best);
    if best == None { return None; }
    r := Some(CandidateOf(direction, best.value.long, best.value.short));
  }

  lemma LegsAreUsable(chain: Chain, kind: OptionKind, usable: Chain)
    requires forall q :: q in usable <==> q in chain && Usable(q, kind)
    ensures forall q :: Leg(chain, kind, q) ==> q in usable
  {
  }

  // ------------------------------------------------------- one answer, whatever the order

  /** No two quotes of one type and expiry share a strike. */
  ghost predicate UniqueStrikes(chain: Chain)
  {
    forall p, q :: p in chain && q in chain && p.kind == q.kind && p.expiration == q.expiration && p.strike == q.strike
      ==> p == q
  }

  lemma LeastUnique(chain: Chain, price: real, direction: Direction, l: Quote, s: Quote, l': Quote, s': Quote)
    requires UniqueStrikes(chain)
    requires Least(chain, price, direction, l, s) && Least(chain, price, direction, l', s')
    ensures l == l' && s == s'
  {
    SameExpiry(chain, Wanted(direction), l, l');
    SameExpiry(chain, Wanted(direction), s, s');
    assert KeyOf(l, s) == KeyOf(l', s');
  }

  lemma SameExpiry(chain: Chain, kind: OptionKind, p: Quote, q: Quote)
    requires Leg(chain, kind, p) && Leg(chain, kind, q)
    ensures p.expiration == q.expiration
  {
  }

  lemma EligibleForgetsOrder(a: Chain, b: Chain, price: real, direction: Direction, l: Quote, s: Quote)
    requires forall q :: q in a <==> q in b
    requires Eligible(a, price, direction, l, s)
    ensures Eligible(b, price, direction, l, s)
  {
    NearestForgetsOrder(a, b, Wanted(direction), l.expiration);
  }

  lemma NearestForgetsOrder(a: Chain, b: Chain, kind: OptionKind, expiry: int)
    requires forall q :: q in a <==> q in b
    requires Nearest(a, kind, expiry)
    ensures Nearest(b, kind, expiry)
  {
    var i :| 0 <= i < |a| && Usable(a[i], kind) && a[i].expiration == expiry;
    assert a[i] in b;
    forall j | 0 <= j < |b| && Usable(b[j], kind) ensures expiry <= b[j].expiration {
      assert b[j] in a;
    }
  }

  lemma SameEligibleSameAnswer(a: Chain, b: Chain, price: real, direction: Direction,
                               r: Option<Candidate>, r': Option<Candidate>)
    requires forall l, s :: Eligible(a, price, direction, l, s) <==> Eligible(b, price, direction, l, s)
    requires UniqueStrikes(a)
    requires IsSelection(a, price, direction, r) && IsSelection(b, price, direction, r')
    ensures r == r'
  {
    hide Eligible, Less, KeyOf, CandidateOf;
    if r.Some? {
      var l, s :| Least(a, price, direction, l, s) && r.value == CandidateOf(direction, l, s);
      assert Eligible(b, price, direction, l, s);
      if r'.Some? {
        var l', s' :| Least(b, price, direction, l', s') && r'.value == CandidateOf(direction, l', s');
        assert Least(a, price, direction, l', s');
        LeastUnique(a, price, direction, l, s, l', s');
      }
    }
  }

  /**
    With unique strikes the answer is one pair, and any reordering of the chain (or
    repetition of its rows) leaves it unchanged.
  */
  lemma SelectionForgetsOrder(a: Chain, b: Chain, price: real, direction: Direction,
                              r: Option<Candidate>, r': Option<Candidate>)
    requires forall q :: q in a <==> q in b
    requires UniqueStrikes(a)
    requires IsSelection(a, price, direction, r) && IsSelection(b, price, direction, r')
    ensures r == r'
  {
    hide Eligible, IsSelection;
    forall l, s ensures Eligible(a, price, direction, l, s) <==> Eligible(b, price, direction, l, s) {
      if Eligible(a, price, direction, l, s) { EligibleForgetsOrder(a, b, price, direction, l, s); }
      if Eligible(b, price, direction, l, s) { EligibleForgetsOrder(b, a, price, direction, l, s); }
    }
    SameEligibleSameAnswer(a, b, price, direction, r, r');
  }

  /** Two rows on one strike: both carry the least key, so the answer is not unique. */
  lemma DuplicateStrikesTie(chain: Chain, price: real, direction: Direction, l: Quote, s: Quote, t: Quote)
    requires Least(chain, price, direction, l, s)
    requires t in chain && t == s.(symbol := t.symbol)
    ensures Least(chain, price, direction, l, t)
  {
    TwinEligible(chain, price, direction, l, s, t);
    hide Eligible, Less;
  }

  lemma TwinEligible(chain: Chain, price: real, direction: Direction, l: Quote, s: Quote, t: Quote)
    requires Eligible(chain, price, direction, l, s) && t in chain && t == s.(symbol := t.symbol)
    ensures Eligible(chain, price, direction, l, t) && KeyOf(l, t) == KeyOf(l, s)
  {
  }

  // ---------------------------------------------------------------------- the governor

  datatype Reason = LegsNotInSnapshot | MaxLossMismatch | ExceedsBudget
    | InsufficientBuyingPower | DirectionOutsideSetup

  datatype Check = Check(name: string, passed: bool)

  datatype RiskDecision = RiskDecision(approved: bool, reasons: seq<Reason>, budget: real, maxLoss: real)

  /** `{quote.contract_symbol: quote}`: the last row of a symbol wins. */
  function Lookup(chain: Chain, symbol: string): (r: Option<Quote>)
    ensures r == None <==> forall q :: q in chain ==> q.symbol != symbol
    ensures r.Some? ==> r.value in chain && r.value.symbol == symbol
  {
    if chain == [] then None
    else
      var last := chain[|chain| - 1];
      assert chain == chain[..|chain| - 1] + [last];
      if last.symbol == symbol then Some(last) else Lookup(chain[..|chain| - 1], symbol)
  }

  function Budget(s: Snapshot): real
  {
    Cents(s.equity * RISK_FRACTION_OF_EQUITY)
  }

  function Lots(each: real, quantity: int): real
  {
    each * quantity as real
  }

  function LossOf(debit: real, quantity: int): real
  {
    Cents(Lots(debit * CONTRACT_MULTIPLIER, quantity))
  }

  function Claimed(c: Candidate): real
  {
    Cents(Lots(c.maxLoss, c.quantity))
  }

  /** The loss observed quotes imply for a spread, when both its legs are quoted. */
  function ObservedLoss(s: Snapshot, c: Candidate): Option<real>
  {
    var long, short := Lookup(s.chain, c.longSymbol), Lookup(s.chain, c.shortSymbol);
    if long == None || short == None then None
    else Some(LossOf(CrossingDebit(long.value, short.value), c.quantity))
  }

  class RiskGovernor {
    var lastChecks: seq<Check>

    constructor ()
      ensures lastChecks == []
    {
      lastChecks := [];
    }

    /** Terminal authority: approval needs every check, against the loss the quotes imply. */
    method Evaluate(s: Snapshot, setup: Direction, thesis: Direction, c: Candidate) returns (d: RiskDecision)
      modifies this
      ensures d.approved <==>
        && ObservedLoss(s, c) == Some(Claimed(c))
        && Claimed(c) <= Budget(s) && Claimed(c) <= s.buyingPower && thesis == setup
      ensures d.approved <==> d.reasons == []
      ensures d.approved ==> d.maxLoss == Claimed(c)
      ensures !d.approved ==>
                d.maxLoss == Min(if ObservedLoss(s, c).Some? then ObservedLoss(s, c).value else 0.0, Budget(s))
      ensures LegsNotInSnapshot in d.reasons <==> ObservedLoss(s, c) == None
      ensures ObservedLoss(s, c).Some? ==> var loss := ObservedLoss(s, c).value;
        && (MaxLossMismatch in d.reasons <==> loss != Claimed(c))
        && (ExceedsBudget in d.reasons <==> loss > Budget(s))
        && (InsufficientBuyingPower in d.reasons <==> loss > s.buyingPower)
        && (DirectionOutsideSetup in d.reasons <==> thesis != setup)
      ensures d.budget == Budget(s)
      ensures lastChecks != [] && (d.approved <==> forall k :: 0 <= k < |lastChecks| ==> lastChecks[k].passed)
    {
      hide LossOf, Claimed, CrossingDebit, Budget, Lookup;
      var checks: seq<Check> := [];
      var reasons: seq<Reason> := [];
      var budget := Budget(s);
      var long, short := Lookup(s.chain, c.longSymbol), Lookup(s.chain, c.shortSymbol);
      if long == None || short == None {
        lastChecks := [Check("legs_present", false)];
        assert !lastChecks[0].passed;
        return RiskDecision(false, [LegsNotInSnapshot], budget, Min(0.0, budget));
      }
      checks := checks + [Check("legs_present", true)];
      var loss := LossOf(CrossingDebit(long.value, short.value), c.quantity);
      var matches := loss == Claimed(c);
      checks := checks + [Check("max_loss_recomputed", matches)];
      if !matches { reasons := reasons + [MaxLossMismatch]; }
      var within := loss <= budget;
      checks := checks + [Check("within_risk_budget", within)];
      if !within { reasons := reasons + [ExceedsBudget]; }
      var affordable := loss <= s.buyingPower;
      checks := checks + [Check("affordable", affordable)];
      if !affordable { reasons := reasons + [InsufficientBuyingPower]; }
      var directional := thesis == setup;
      checks := checks + [Check("direction_matches_setup", directional)];
      if !directional { reasons := reasons + [DirectionOutsideSetup]; }
      lastChecks := checks;
      assert checks[1].passed == matches && checks[2].passed == within && checks[3].passed == affordable
        && checks[4].passed == directional;
      assert reasons == [] <==> matches && within && affordable && directional;
      d := RiskDecision(reasons == [], reasons, budget, if reasons == [] then loss else Min(loss, budget));
    }
  }

  ghost predicate UniqueSymbols(chain: Chain)
  {
    forall p, q :: p in chain && q in chain && p.symbol == q.symbol ==> p == q
  }

  lemma LookupUnique(chain: Chain, q: Quote)
    requires UniqueSymbols(chain) && q in chain
    ensures Lookup(chain, q.symbol) == Some(q)
  {
  }

  /** The governor's recomputed loss always matches what the selector claimed. */
  lemma ClaimMatchesQuotes(s: Snapshot, direction: Direction, c: Candidate)
    requires UniqueSymbols(s.chain)
    requires IsSelection(s.chain, s.price, direction, Some(c))
    ensures ObservedLoss(s, c) == Some(Claimed(c)) && Claimed(c) == c.maxLoss
    ensures c.estimatedDebit * CONTRACT_MULTIPLIER - 0.005 <= c.maxLoss
  {
    hide Less, KeyOf, Screened, CrossingDebit, Cents, LossOf, Claimed;
    var l, sh :| Least(s.chain, s.price, direction, l, sh) && c == CandidateOf(direction, l, sh);
    LookupUnique(s.chain, l);
    LookupUnique(s.chain, sh);
    OneLot(c, CrossingDebit(l, sh));
  }

  lemma OneLot(c: Candidate, debit: real)
    requires c.quantity == 1 && c.maxLoss == Cents(debit * CONTRACT_MULTIPLIER)
    ensures LossOf(debit, 1) == c.maxLoss == Claimed(c)
    ensures debit * CONTRACT_MULTIPLIER - 0.005 <= c.maxLoss
  {
    var loss := debit * CONTRACT_MULTIPLIER;
    CentsIdempotent(loss);
    assert c.maxLoss * c.quantity as real == c.maxLoss && loss * 1 as real == loss;
  }

  /** Approved risk bounds the quoted cross: the allowance is never negative, and the spread still fits its width. */
  lemma DebitBoundsTheCross(chain: Chain, price: real, direction: Direction, l: Quote, s: Quote)
    requires Eligible(chain, price, direction, l, s)
    ensures 0.0 < l.ask - s.bid <= CrossingDebit(l, s) < Width(l, s)
  {
  }

  // ------------------------------------------------------------ what a selection reads as

  /** A quote the selector may use: two-sided, not crossed, a quarter of its middle wide at most, 14 to 45 days out. */
  predicate Usual(q: Quote, kind: OptionKind)
  {
    && q.kind == kind && 14 <= q.dte <= 45 && 0.0 < q.bid <= q.ask
    && 8.0 * (q.ask - q.bid) <= q.bid + q.ask
  }

  lemma UsableReads(q: Quote, kind: OptionKind)
    ensures Usable(q, kind) <==> Usual(q, kind)
  {
    if q.bid > 0.0 && q.ask > 0.0 { Quotient(q.ask - q.bid, (q.bid + q.ask) / 2.0); }
  }

  lemma Quotient(top: real, bottom: real)
    requires bottom > 0.0
    ensures top / bottom <= 0.25 <==> 4.0 * top <= bottom
  {
    AtMost(top, bottom, 0.25);
  }

  lemma AtMost(top: real, bottom: real, limit: real)
    requires bottom > 0.0
    ensures top / bottom <= limit <==> top <= limit * bottom
  {
    var x := top / bottom;
    assert x * bottom == top;
    if x <= limit { Ordered(x, limit, bottom); } else { Strictly(limit, x, bottom); }
  }

  lemma Ordered(x: real, y: real, z: real)
    requires x <= y && z > 0.0
    ensures x * z <= y * z
  {
  }

  lemma Strictly(x: real, y: real, z: real)
    requires x < y && z > 0.0
    ensures x * z < y * z
  {
  }

  /** What the pair costs at the worst quotes, and the width between its strikes, a gain to the right side. */
  function Apart(direction: Direction, long: Quote, short: Quote): real
  {
    if direction == Bullish then short.strike - long.strike else long.strike - short.strike
  }

  /** Half of what the two quotes are wide, rounded up to a cent, on top of crossing both. */
  lemma CrossingDebitReads(long: Quote, short: Quote) returns (cents: int)
    ensures CrossingDebit(long, short) == long.ask - short.bid + cents as real / 100.0
    ensures var half := ((long.ask - long.bid) + (short.ask - short.bid)) / 2.0;
      half <= cents as real / 100.0 < half + 0.01
  {
    var half := ((long.ask - long.bid) + (short.ask - short.bid)) * EXECUTION_ALLOWANCE_FRACTION;
    cents := CentsUpLeast(half);
  }

  /** To four places, a ratio is at most 0.6 exactly up to 0.60005. */
  lemma RatioReads(long: Quote, short: Quote)
    requires Width(long, short) > 0.0
    ensures Ratio(long, short) <= MAX_DEBIT_TO_WIDTH <==> long.ask - short.bid <= 0.60005 * Width(long, short)
  {
    var debit, w := long.ask - short.bid, Width(long, short);
    AtMost(debit, w, 0.60005);
    FourPlaces(debit / w);
    hide HalfEven, Width;
  }

  lemma FourPlaces(x: real)
    ensures HalfEven(x * 10000.0) as real / 10000.0 <= 0.60 <==> x <= 0.60005
  {
    if x <= 0.60005 {
      HalfEvenMonotone(x * 10000.0, 6000.5);
    } else {
      assert HalfEven(x * 10000.0) >= 6001;
    }
  }

  /** The screens, in strikes and prices: calls when bullish and puts otherwise, the legs' sides and deltas. */
  lemma EligibleReads(chain: Chain, price: real, direction: Direction, l: Quote, s: Quote)
    ensures Eligible(chain, price, direction, l, s) <==>
      var kind := if direction == Bullish then Call else Put;
      && l in chain && s in chain && Usual(l, kind) && Usual(s, kind) && l.expiration == s.expiration
      && (forall q :: q in chain && Usual(q, kind) ==> l.expiration <= q.expiration)
      && l.delta.Some? && 0.55 <= Abs(l.delta.value) <= 0.70 && s.delta.Some? && 0.25 <= Abs(s.delta.value) <= 0.40
      && Apart(direction, l, s) > 0.0 && Apart(direction, l, s) >= 0.005 * price
      && 0.0 < l.ask - s.bid <= 0.60005 * Apart(direction, l, s)
      && CrossingDebit(l, s) < Apart(direction, l, s)
  {
    hide Usable, Usual, CrossingDebit, Ratio;
    var kind := Wanted(direction);
    forall q ensures Usable(q, kind) <==> Usual(q, kind) { UsableReads(q, kind); }
    if Apart(direction, l, s) > 0.0 { RatioReads(l, s); }
    LegsRead(chain, kind, l, s);
    hide Leg;
  }

  lemma LegsRead(chain: Chain, kind: OptionKind, l: Quote, s: Quote)
    ensures Leg(chain, kind, l) && Leg(chain, kind, s) <==>
      && l in chain && s in chain && Usable(l, kind) && Usable(s, kind) && l.expiration == s.expiration
      && (forall q :: q in chain && Usable(q, kind) ==> l.expiration <= q.expiration)
  {
    hide Usable;
  }

  /** What is selected, for one contract: no eligible pair is narrower, or as narrow and cheaper for its width. */
  lemma SelectionReads(chain: Chain, price: real, direction: Direction, c: Candidate) returns (l: Quote, s: Quote)
    requires IsSelection(chain, price, direction, Some(c))
    ensures Eligible(chain, price, direction, l, s) && c.longSymbol == l.symbol && c.shortSymbol == s.symbol
    ensures c.quantity == 1 && c.estimatedDebit == CrossingDebit(l, s)
    ensures -0.005 <= c.maxLoss - 100.0 * c.estimatedDebit <= 0.005
    ensures c.strategy == if direction == Bullish then BullCallDebitSpread else BearPutDebitSpread
    ensures forall m, t :: Eligible(chain, price, direction, m, t) ==>
      && Apart(direction, l, s) <= Apart(direction, m, t)
      && (Apart(direction, l, s) == Apart(direction, m, t) ==>
            && Ratio(l, s) <= Ratio(m, t) && (Ratio(l, s) == Ratio(m, t) ==> l.strike <= m.strike))
  {
    l, s :| Least(chain, price, direction, l, s) && c == CandidateOf(direction, l, s);
    var n := CentsNearest(CrossingDebit(l, s) * CONTRACT_MULTIPLIER);
    hide Leg, CrossingDebit, LongDelta, ShortDelta, Ratio, Cents;
  }

  /** The budget is three quarters of a percent of the equity, to the cent. */
  lemma BudgetReads(s: Snapshot)
    ensures -0.005 <= Budget(s) - 0.0075 * s.equity <= 0.005
  {
    var n := CentsNearest(s.equity * RISK_FRACTION_OF_EQUITY);
  }

  /** The observed loss is what the two quotes cost by the same crossing, for the quantity claimed. */
  lemma ObservedLossReads(s: Snapshot, c: Candidate, long: Quote, short: Quote)
    requires UniqueSymbols(s.chain) && long in s.chain && short in s.chain
    requires long.symbol == c.longSymbol && short.symbol == c.shortSymbol
    ensures ObservedLoss(s, c).Some?
    ensures -0.005 <= ObservedLoss(s, c).value - CrossingDebit(long, short) * 100.0 * c.quantity as real <= 0.005
    ensures -0.005 <= Claimed(c) - c.maxLoss * c.quantity as real <= 0.005
  {
    hide CrossingDebit, LossOf, Claimed, Lots, Lookup, UniqueSymbols;
    LookupUnique(s.chain, long);
    LookupUnique(s.chain, short);
    var debit := CrossingDebit(long, short);
    assert ObservedLoss(s, c) == Some(LossOf(debit, c.quantity));
    LossReads(debit, c.quantity);
    ClaimReads(c);
  }

  lemma ClaimReads(c: Candidate)
    ensures -0.005 <= Claimed(c) - c.maxLoss * c.quantity as real <= 0.005
  {
    LotsReads(c.maxLoss, c.quantity);
    hide Lots;
    var n := CentsNearest(Lots(c.maxLoss, c.quantity));
    hide Cents;
  }

  lemma LossReads(debit: real, quantity: int)
    ensures -0.005 <= LossOf(debit, quantity) - debit * 100.0 * quantity as real <= 0.005
  {
    LotsReads(debit * CONTRACT_MULTIPLIER, quantity);
    LotsReads(debit * 100.0, quantity);
    hide Lots;
    assert debit * CONTRACT_MULTIPLIER == debit * 100.0;
    var n := CentsNearest(Lots(debit * CONTRACT_MULTIPLIER, quantity));
    hide Cents;
  }

  lemma LotsReads(each: real, quantity: int)
    ensures Lots(each, quantity) == each * quantity as real
  {
  }
}
