/**
  The bounded revision of `orchestrator.py`: a spread is proposed (`agents.py`), judged by
  the risk gate (`risk.py`), and resized at most once. Amounts are exact reals; a text is
  its stripped content, or nothing when it is blank.
*/
module Revision {
  import opened Wrappers
  import Contracts

  datatype Direction = Bullish | Bearish

  datatype OptionType = CallType | PutType

  datatype SpreadStrategy = CallDebitSpread | PutDebitSpread

  datatype Quote = Quote(symbol: nat, kind: OptionType, expiration: int, dte: int, strike: real, bid: real, ask: real) {

    predicate TwoSided() { bid > 0.0 && ask > 0.0 }

    predicate Crossed() { bid > ask }

    function SpreadRatio(): real
    {
      if !TwoSided() || Crossed() then 999.0 else (ask - bid) / ((bid + ask) / 2.0)
    }
  }

  datatype Policy = Policy(maxRiskPct: real, minConfidence: real, minEvidence: int, minDte: int, maxDte: int,
                           maxBidAskRatio: real, maxContracts: int)

  type Text = Option<nat>

  datatype Thesis = Thesis(direction: Direction, confidence: real, evidence: seq<Text>, invalidations: seq<Text>)

  datatype Case = Case(underlying: real, equity: real, chain: seq<Quote>, policy: Policy)

  datatype Proposal = Proposal(strategy: SpreadStrategy, long: Quote, short: Quote, quantity: int, debit: real) {

    function MaxLoss(): real { debit * 100.0 * quantity as real }
  }

  // ------------------------------------------------------------------------- the proposer

  type Pair = (Quote, Quote)

  function Type(d: Direction): OptionType { if d == Bearish then PutType else CallType }

  function StrategyFor(d: Direction): SpreadStrategy { if d == Bearish then PutDebitSpread else CallDebitSpread }

  predicate InDte(p: Policy, q: Quote) { p.minDte <= q.dte <= p.maxDte }

  function Eligible(chain: seq<Quote>, p: Policy, kind: OptionType): (r: seq<Quote>)
    ensures forall q :: q in r <==> q in chain && q.kind == kind && InDte(p, q)
  {
    if chain == [] then []
    else
      var rest := Eligible(chain[1..], p, kind);
      if chain[0].kind == kind && InDte(p, chain[0]) then [chain[0]] + rest else rest
  }

  predicate Pairable(a: Quote, b: Quote)
  {
    a.expiration == b.expiration && a.dte == b.dte && a.strike != b.strike
  }

  /** The long leg is the higher strike of a bearish spread and the lower of a bullish one. */
  function Oriented(a: Quote, b: Quote, d: Direction): Pair
  {
    if (a.strike > b.strike) == (d == Bearish) then (a, b) else (b, a)
  }

  function PairsWith(first: Quote, rest: seq<Quote>, d: Direction): seq<Pair>
  {
    if rest == [] then []
    else (if Pairable(first, rest[0]) then [Oriented(first, rest[0], d)] else []) + PairsWith(first, rest[1..], d)
  }

  function Pairs(quotes: seq<Quote>, d: Direction): seq<Pair>
  {
    if quotes == [] then [] else PairsWith(quotes[0], quotes[1..], d) + Pairs(quotes[1..], d)
  }

  /** Nearest to the underlying by both strikes, then by the long one, then the remaining fields. */
  predicate Less(a: Pair, b: Pair, u: real)
  {
    var (x, y) := (Contracts.Abs(a.0.strike - u) + Contracts.Abs(a.1.strike - u),
                   Contracts.Abs(b.0.strike - u) + Contracts.Abs(b.1.strike - u));
    x < y || (x == y && LessNear(a, b, u))
  }

  predicate LessNear(a: Pair, b: Pair, u: real)
  {
    var (x, y) := (Contracts.Abs(a.0.strike - u), Contracts.Abs(b.0.strike - u));
    x < y || (x == y && (a.0.dte < b.0.dte || (a.0.dte == b.0.dte && (a.0.expiration < b.0.expiration ||
      (a.0.expiration == b.0.expiration && (a.0.strike < b.0.strike ||
        (a.0.strike == b.0.strike && a.1.strike < b.1.strike)))))))
  }

  /** The first of the least candidates. */
  function Least(pairs: seq<Pair>, u: real): Pair
    requires pairs != []
  {
    if |pairs| == 1 then pairs[0]
    else
      var best := Least(pairs[..|pairs| - 1], u);
      if Less(pairs[|pairs| - 1], best, u) then pairs[|pairs| - 1] else best
  }

  function Propose(c: Case, t: Thesis, quantity: Option<int>): Option<Proposal>
  {
    var eligible := Eligible(c.chain, c.policy, Type(t.direction));
    var pairs := Pairs(eligible, t.direction);
    if |eligible| < 2 || pairs == [] then None
    else
      var (long, short) := Least(pairs, c.underlying);
      if long.ask - short.bid <= 0.0 then None
      else Some(Proposal(StrategyFor(t.direction), long, short,
                         if quantity == None then c.policy.maxContracts else quantity.value, long.ask - short.bid))
  }

  /** The inner loop: every pair of one quote with the later ones. */
  method PairOne(candidates: seq<Pair>, first: Quote, rest: seq<Quote>, d: Direction) returns (more: seq<Pair>)
    ensures more == candidates + PairsWith(first, rest, d)
  {
    more := candidates;
    assert rest[0..] == rest;
    for j := 0 to |rest|
      invariant more + PairsWith(first, rest[j..], d) == candidates + PairsWith(first, rest, d)
    {
      assert rest[j..][1..] == rest[j + 1..];
      if Pairable(first, rest[j]) { more := more + [Oriented(first, rest[j], d)]; }
    }
  }

  /** The nested loops over the eligible quotes, and the minimum over what they collect. */
  method SelectPair(quotes: seq<Quote>, d: Direction, u: real) returns (r: Option<Pair>)
    ensures r == if Pairs(quotes, d) == [] then None else Some(Least(Pairs(quotes, d), u))
  {
    hide PairsWith, Least;
    var candidates: seq<Pair> := [];
    assert quotes[0..] == quotes;
    for i := 0 to |quotes|
      invariant candidates + Pairs(quotes[i..], d) == Pairs(quotes, d)
    {
      assert quotes[i..][1..] == quotes[i + 1..];
      candidates := PairOne(candidates, quotes[i], quotes[i + 1..], d);
    }
    assert candidates == Pairs(quotes, d);
    r := FirstLeast(candidates, u);
  }

  method FirstLeast(candidates: seq<Pair>, u: real) returns (r: Option<Pair>)
    ensures r == if candidates == [] then None else Some(Least(candidates, u))
  {
    hide Less;
    if candidates == [] { return None; }
    var best := candidates[0];
    assert candidates[..1] == [candidates[0]];
    for k := 1 to |candidates|
      invariant best == Least(candidates[..k], u)
    {
      assert candidates[..k + 1][..k] == candidates[..k];
      if Less(candidates[k], best, u) { best := candidates[k]; }
    }
    assert candidates[..|candidates|] == candidates;
    r := Some(best);
  }

  lemma {:induction false} PairsWithExactly(first: Quote, rest: seq<Quote>, d: Direction, p: Pair)
    ensures p in PairsWith(first, rest, d) <==>
              exists j :: 0 <= j < |rest| && Pairable(first, rest[j]) && p == Oriented(first, rest[j], d)
  {
    if rest != [] {
      PairsWithExactly(first, rest[1..], d, p);
      if j :| 0 <= j < |rest| && Pairable(first, rest[j]) && p == Oriented(first, rest[j], d) {
        if j > 0 { assert rest[1..][j - 1] == rest[j]; }
      }
      if j :| 0 <= j < |rest| - 1 && Pairable(first, rest[1..][j]) && p == Oriented(first, rest[1..][j], d) {
        assert rest[j + 1] == rest[1..][j];
      }
    }
  }

  ghost predicate Candidate(quotes: seq<Quote>, d: Direction, p: Pair, i: int, j: int)
  {
    0 <= i < j < |quotes| && Pairable(quotes[i], quotes[j]) && p == Oriented(quotes[i], quotes[j], d)
  }

  /** The candidates are the pairs of two listed quotes of one expiry and different strikes. */
  lemma {:induction false} PairsExactly(quotes: seq<Quote>, d: Direction, p: Pair)
    ensures p in Pairs(quotes, d) <==> exists i, j :: Candidate(quotes, d, p, i, j)
  {
    if quotes != [] {
      var first, rest := quotes[0], quotes[1..];
      PairsExactly(rest, d, p);
      PairsWithExactly(first, rest, d, p);
      if i, j :| Candidate(quotes, d, p, i, j) {
        if i > 0 {
          assert Candidate(rest, d, p, i - 1, j - 1);
        } else {
          assert rest[j - 1] == quotes[j];
        }
      }
      if i, j :| Candidate(rest, d, p, i, j) { assert Candidate(quotes, d, p, i + 1, j + 1); }
      if p in PairsWith(first, rest, d) {
        var j :| 0 <= j < |rest| && Pairable(first, rest[j]) && p == Oriented(first, rest[j], d);
        assert Candidate(quotes, d, p, 0, j + 1);
      }
    }
  }

  lemma LessChain(a: Pair, b: Pair, c: Pair, u: real)
    ensures !Less(b, a, u) && !Less(c, b, u) ==> !Less(c, a, u)
    ensures Less(a, b, u) ==> !Less(b, a, u)
  {
  }

  /** The chosen pair is a candidate, and no candidate is less. */
  lemma {:induction false} LeastIsLeast(pairs: seq<Pair>, u: real)
    requires pairs != []
    ensures Least(pairs, u) in pairs && forall p :: p in pairs ==> !Less(p, Least(pairs, u), u)
  {
    hide Less;
    var last := pairs[|pairs| - 1];
    LessChain(last, last, last, u);
    if |pairs| > 1 {
      var front := pairs[..|pairs| - 1];
      LeastIsLeast(front, u);
      assert pairs == front + [last];
      forall p | p in pairs ensures !Less(p, Least(pairs, u), u) {
        LessChain(last, Least(front, u), p, u);
        LessChain(last, Least(front, u), last, u);
      }
    }
  }

  // ------------------------------------------------------------------------- the risk gate

  datatype Leg = Long | Short

  datatype Reason =
    | ConfidenceOutsideRange | ConfidenceBelowPolicy | InsufficientEvidence | MissingInvalidation | NoValidSpread
    | DteOutsidePolicy | NotTwoSided(leg: Leg) | QuoteCrossed(leg: Leg) | TooWide(leg: Leg)
    | NotInChain(leg: Leg) | SnapshotMismatch(leg: Leg)
    | SameContractTwice | ExpirationMismatch | DteMismatch | TypeMismatch | StrategyMismatch | InvalidShape
    | DebitMismatch | NonPositiveDebit | DebitNotBelowWidth
    | QuantityBelowPolicy | QuantityAbovePolicy | LossAboveBudget

  function Budget(c: Case): real { c.equity * c.policy.maxRiskPct }

  function Noted(rs: seq<Reason>, holds: bool, r: Reason): seq<Reason> { if holds then rs + [r] else rs }

  function ThesisReasons(rs: seq<Reason>, c: Case, t: Thesis): seq<Reason>
  {
    var confidence := if !(0.0 <= t.confidence <= 1.0) then rs + [ConfidenceOutsideRange]
                      else Noted(rs, t.confidence < c.policy.minConfidence, ConfidenceBelowPolicy);
    var evidence := Noted(confidence,
                          |set x | x in t.evidence && x.Some?| < c.policy.minEvidence, InsufficientEvidence);
    Noted(evidence, forall x :: x in t.invalidations ==> x == None, MissingInvalidation)
  }

  function QuoteReasons(rs: seq<Reason>, q: Quote, leg: Leg, limit: real): seq<Reason>
  {
    if !q.TwoSided() then rs + [NotTwoSided(leg)] else if q.Crossed() then rs + [QuoteCrossed(leg)]
    else Noted(rs, q.SpreadRatio() > limit, TooWide(leg))
  }

  /** The first listed quote under a symbol. */
  function Observed(chain: seq<Quote>, symbol: nat): Option<Quote>
  {
    if chain == [] then None else if chain[0].symbol == symbol then Some(chain[0]) else Observed(chain[1..], symbol)
  }

  function SnapshotReasons(rs: seq<Reason>, c: Case, q: Quote, leg: Leg): seq<Reason>
  {
    var seen := Observed(c.chain, q.symbol);
    if seen == None then rs + [NotInChain(leg)] else Noted(rs, seen.value != q, SnapshotMismatch(leg))
  }

  /** The long leg is on the side of the short one that the direction asks for. */
  predicate WellShaped(t: Thesis, p: Proposal)
  {
    if t.direction == Bearish then p.long.strike > p.short.strike else p.long.strike < p.short.strike
  }

  predicate WrongType(t: Thesis, p: Proposal)
  {
    p.long.kind != Type(t.direction) || p.short.kind != Type(t.direction)
  }

  function LegReasons(rs: seq<Reason>, t: Thesis, p: Proposal): seq<Reason>
  {
    var same := Noted(rs, p.long.symbol == p.short.symbol, SameContractTwice);
    var expiration := Noted(same, p.long.expiration != p.short.expiration, ExpirationMismatch);
    var dte := Noted(expiration, p.long.dte != p.short.dte, DteMismatch);
    Noted(dte, WrongType(t, p), TypeMismatch)
  }

  function ShapeReasons(rs: seq<Reason>, t: Thesis, p: Proposal): seq<Reason>
  {
    var strategy := Noted(rs, p.strategy != StrategyFor(t.direction), StrategyMismatch);
    var shape := Noted(strategy, !WellShaped(t, p), InvalidShape);
    var claimed := Noted(shape, p.debit != p.long.ask - p.short.bid, DebitMismatch);
    var positive := Noted(claimed, p.debit <= 0.0, NonPositiveDebit);
    Noted(positive, p.debit >= Contracts.Abs(p.long.strike - p.short.strike), DebitNotBelowWidth)
  }

  function MarketReasons(rs: seq<Reason>, c: Case, p: Proposal): seq<Reason>
  {
    var dte := Noted(rs, !(InDte(c.policy, p.long) && InDte(c.policy, p.short)), DteOutsidePolicy);
    var long := QuoteReasons(dte, p.long, Long, c.policy.maxBidAskRatio);
    var short := QuoteReasons(long, p.short, Short, c.policy.maxBidAskRatio);
    SnapshotReasons(SnapshotReasons(short, c, p.long, Long), c, p.short, Short)
  }

  /** Everything the gate says that no quantity can change. */
  function FixedReasons(c: Case, t: Thesis, p: Proposal): seq<Reason>
  {
    ShapeReasons(LegReasons(MarketReasons(ThesisReasons([], c, t), c, p), t, p), t, p)
  }

  function SizeReasons(rs: seq<Reason>, c: Case, p: Proposal): seq<Reason>
  {
    var below := Noted(rs, p.quantity < 1, QuantityBelowPolicy);
    var above := Noted(below, p.quantity > c.policy.maxContracts, QuantityAbovePolicy);
    Noted(above, p.quantity > 0 && p.MaxLoss() > Budget(c), LossAboveBudget)
  }

  function Reasons(c: Case, t: Thesis, p: Proposal): seq<Reason>
  {
    SizeReasons(FixedReasons(c, t, p), c, p)
  }

  predicate AboutSize(r: Reason) { r == LossAboveBudget || r == QuantityAbovePolicy }

  predicate Resizable(reasons: seq<Reason>)
  {
    forall r :: r in reasons ==> AboutSize(r)
  }

  function Suggestion(c: Case, t: Thesis, p: Proposal): Option<int>
  {
    if p.quantity > 0 && p.MaxLoss() > Budget(c) && p.debit * 100.0 > 0.0 && Resizable(Reasons(c, t, p))
       && (Budget(c) / (p.debit * 100.0)).Floor >= 1
    then
      var affordable := (Budget(c) / (p.debit * 100.0)).Floor;
      Some(if affordable < c.policy.maxContracts then affordable else c.policy.maxContracts)
    else None
  }

  datatype RiskResult = RiskResult(approved: bool, reasons: seq<Reason>, budget: real, maxLoss: real,
                                   suggested: Option<int>)

  function Gate(c: Case, t: Thesis, p: Option<Proposal>): RiskResult
  {
    match p
    case None => RiskResult(false, ThesisReasons([], c, t) + [NoValidSpread], Budget(c), 0.0, None)
    case Some(s) => RiskResult(Reasons(c, t, s) == [], Reasons(c, t, s), Budget(c), s.MaxLoss(), Suggestion(c, t, s))
  }

  class RiskGate {
    var reasons: seq<Reason>

    method Object(holds: bool, r: Reason)
      modifies this
      ensures reasons == Noted(old(reasons), holds, r)
    {
      if holds { reasons := reasons + [r]; }
    }

    method ValidateThesis(c: Case, t: Thesis)
      modifies this
      ensures reasons == ThesisReasons(old(reasons), c, t)
    {
      if !(0.0 <= t.confidence <= 1.0) {
        reasons := reasons + [ConfidenceOutsideRange];
      } else if t.confidence < c.policy.minConfidence {
        reasons := reasons + [ConfidenceBelowPolicy];
      }
      Object(|set x | x in t.evidence && x.Some?| < c.policy.minEvidence, InsufficientEvidence);
      Object(forall x :: x in t.invalidations ==> x == None, MissingInvalidation);
    }

    method ValidateQuote(q: Quote, leg: Leg, limit: real)
      modifies this
      ensures reasons == QuoteReasons(old(reasons), q, leg, limit)
    {
      if !q.TwoSided() {
        reasons := reasons + [NotTwoSided(leg)];
        return;
      }
      if q.Crossed() {
        reasons := reasons + [QuoteCrossed(leg)];
        return;
      }
      Object(q.SpreadRatio() > limit, TooWide(leg));
    }

    method ValidateSnapshotLeg(c: Case, q: Quote, leg: Leg)
      modifies this
      ensures reasons == SnapshotReasons(old(reasons), c, q, leg)
    {
      var seen := Observed(c.chain, q.symbol);
      if seen == None {
        reasons := reasons + [NotInChain(leg)];
      } else if seen.value != q {
        reasons := reasons + [SnapshotMismatch(leg)];
      }
    }

    method ValidateLegs(t: Thesis, p: Proposal)
      modifies this
      ensures reasons == ShapeReasons(LegReasons(old(reasons), t, p), t, p)
    {
      hide Noted;
      Object(p.long.symbol == p.short.symbol, SameContractTwice);
      Object(p.long.expiration != p.short.expiration, ExpirationMismatch);
      Object(p.long.dte != p.short.dte, DteMismatch);
      Object(WrongType(t, p), TypeMismatch);
      Object(p.strategy != StrategyFor(t.direction), StrategyMismatch);
      Object(!WellShaped(t, p), InvalidShape);
      Object(p.debit != p.long.ask - p.short.bid, DebitMismatch);
      Object(p.debit <= 0.0, NonPositiveDebit);
      Object(p.debit >= Contracts.Abs(p.long.strike - p.short.strike), DebitNotBelowWidth);
    }

    /** The reasons in the order they are found, and the quantity that would cure them. */
    method Evaluate(c: Case, t: Thesis, proposal: Option<Proposal>) returns (r: RiskResult)
      modifies this
      ensures r == Gate(c, t, proposal) && reasons == r.reasons
    {
      hide ThesisReasons, QuoteReasons, SnapshotReasons, LegReasons, ShapeReasons, Observed;
      reasons := [];
      ValidateThesis(c, t);
      if proposal == None {
        reasons := reasons + [NoValidSpread];
        return RiskResult(false, reasons, Budget(c), 0.0, None);
      }
      var p := proposal.value;
      Object(!(InDte(c.policy, p.long) && InDte(c.policy, p.short)), DteOutsidePolicy);
      ValidateQuote(p.long, Long, c.policy.maxBidAskRatio);
      ValidateQuote(p.short, Short, c.policy.maxBidAskRatio);
      ValidateSnapshotLeg(c, p.long, Long);
      ValidateSnapshotLeg(c, p.short, Short);
      ValidateLegs(t, p);
      assert reasons == FixedReasons(c, t, p);
      hide FixedReasons;
      Object(p.quantity < 1, QuantityBelowPolicy);
      Object(p.quantity > c.policy.maxContracts, QuantityAbovePolicy);
      var suggested := None;
      if p.quantity > 0 && p.MaxLoss() > Budget(c) {
        reasons := reasons + [LossAboveBudget];
        var perContract := p.debit * 100.0;
        if perContract > 0.0 && Resizable(reasons) {
          var affordable := (Budget(c) / perContract).Floor;
          if affordable >= 1 {
            suggested := Some(if affordable < c.policy.maxContracts then affordable else c.policy.maxContracts);
          }
        }
      }
      r := RiskResult(reasons == [], reasons, Budget(c), p.MaxLoss(), suggested);
    }
  }

  // -------------------------------------------------------- proposer and gate, together

  /** Symbols identify quotes. */
  ghost predicate UniqueSymbols(chain: seq<Quote>)
  {
    forall i, j :: 0 <= i < j < |chain| ==> chain[i].symbol != chain[j].symbol
  }

  lemma {:induction false} ObservedIts(chain: seq<Quote>, q: Quote)
    requires UniqueSymbols(chain) && q in chain
    ensures Observed(chain, q.symbol) == Some(q)
  {
    if chain[0] != q {
      assert q in chain[1..];
      var k :| 0 <= k < |chain| && chain[k] == q;
      ObservedIts(chain[1..], q);
    }
  }

  predicate FromQuotesOrThesis(r: Reason)
  {
    r.ConfidenceOutsideRange? || r.ConfidenceBelowPolicy? || r.InsufficientEvidence? || r.MissingInvalidation?
    || r.NotTwoSided? || r.QuoteCrossed? || r.TooWide? || r.DebitNotBelowWidth?
  }

  /** More was appended, and nothing about the size. */
  ghost predicate Appends(rs: seq<Reason>, more: seq<Reason>)
  {
    rs <= more && forall k :: |rs| <= k < |more| ==> !AboutSize(more[k])
  }

  /** The same, and nothing structural. */
  ghost predicate AppendsMild(rs: seq<Reason>, more: seq<Reason>)
  {
    rs <= more && forall k :: |rs| <= k < |more| ==> FromQuotesOrThesis(more[k])
  }

  lemma ThesisAppends(rs: seq<Reason>, c: Case, t: Thesis)
    ensures AppendsMild(rs, ThesisReasons(rs, c, t))
  {
  }

  lemma QuoteAppends(rs: seq<Reason>, q: Quote, leg: Leg, limit: real)
    ensures AppendsMild(rs, QuoteReasons(rs, q, leg, limit))
  {
  }

  lemma SnapshotAppends(rs: seq<Reason>, c: Case, q: Quote, leg: Leg)
    ensures Appends(rs, SnapshotReasons(rs, c, q, leg))
    ensures Observed(c.chain, q.symbol) == Some(q) ==> SnapshotReasons(rs, c, q, leg) == rs
  {
  }

  lemma LegsAppend(rs: seq<Reason>, t: Thesis, p: Proposal)
    ensures Appends(rs, LegReasons(rs, t, p))
  {
  }

  lemma ShapeAppends(rs: seq<Reason>, t: Thesis, p: Proposal)
    ensures Appends(rs, ShapeReasons(rs, t, p))
    ensures p.debit <= 0.0 ==> ShapeReasons(rs, t, p) != rs
  {
  }

  /**
    The gate finds no structural fault with what the proposer builds:
    only the thesis, the quotes and the size are left to refuse.
  */
  lemma ProposerMeetsTheGate(c: Case, t: Thesis, quantity: Option<int>)
    requires UniqueSymbols(c.chain) && Propose(c, t, quantity).Some?
    ensures forall r :: r in FixedReasons(c, t, Propose(c, t, quantity).value) ==> FromQuotesOrThesis(r)
  {
    var p := Propose(c, t, quantity).value;
    ProposedLegs(c, t, quantity);
    hide Propose;
    ObservedIts(c.chain, p.long);
    ObservedIts(c.chain, p.short);
    hide Observed, ThesisReasons, QuoteReasons, SnapshotReasons;
    var thesis := ThesisReasons([], c, t);
    ThesisAppends([], c, t);
    var long := QuoteReasons(thesis, p.long, Long, c.policy.maxBidAskRatio);
    QuoteAppends(thesis, p.long, Long, c.policy.maxBidAskRatio);
    var short := QuoteReasons(long, p.short, Short, c.policy.maxBidAskRatio);
    QuoteAppends(long, p.short, Short, c.policy.maxBidAskRatio);
    SnapshotAppends(short, c, p.long, Long);
    SnapshotAppends(short, c, p.short, Short);
    assert MarketReasons(thesis, c, p) == short;
    assert FixedReasons(c, t, p) ==
           Noted(short, p.debit >= Contracts.Abs(p.long.strike - p.short.strike), DebitNotBelowWidth);
  }

  lemma ProposedLegs(c: Case, t: Thesis, quantity: Option<int>)
    requires UniqueSymbols(c.chain) && Propose(c, t, quantity).Some?
    ensures var p := Propose(c, t, quantity).value;
      && p.long in c.chain && p.short in c.chain && p.long.symbol != p.short.symbol
      && p.long.kind == p.short.kind == Type(t.direction) && InDte(c.policy, p.long) && InDte(c.policy, p.short)
      && p.long.expiration == p.short.expiration && p.long.dte == p.short.dte
      && p.strategy == StrategyFor(t.direction) && 0.0 < p.debit == p.long.ask - p.short.bid
      && (if t.direction == Bearish then p.long.strike > p.short.strike else p.long.strike < p.short.strike)
  {
    var eligible := Eligible(c.chain, c.policy, Type(t.direction));
    var pairs := Pairs(eligible, t.direction);
    LeastIsLeast(pairs, c.underlying);
    hide Pairs, Least, Less;
    var pair := Least(pairs, c.underlying);
    PairsExactly(eligible, t.direction, pair);
    var i, j :| Candidate(eligible, t.direction, pair, i, j);
    assert eligible[i] in c.chain && eligible[j] in c.chain;
    var m :| 0 <= m < |c.chain| && c.chain[m] == eligible[i];
    var n :| 0 <= n < |c.chain| && c.chain[n] == eligible[j];
    assert m != n;
  }

  // ------------------------------------------------------------------------ one revision

  predicate Approves(c: Case, t: Thesis, p: Proposal, q: int)
  {
    Reasons(c, t, p.(quantity := q)) == []
  }

  /** Affordable is exactly what fits the budget. */
  lemma FloorFits(budget: real, per: real, q: int)
    requires per > 0.0
    ensures q <= (budget / per).Floor <==> per * q as real <= budget
  {
    var x := budget / per;
    assert x * per == budget;
    if q as real <= x {
      assert (x - q as real) * per >= 0.0;
    } else {
      assert (q as real - x) * per > 0.0;
    }
  }

  lemma ApprovesExactly(c: Case, t: Thesis, p: Proposal, q: int)
    ensures Approves(c, t, p, q) <==>
              FixedReasons(c, t, p) == [] && 1 <= q <= c.policy.maxContracts && p.debit * 100.0 * q as real <= Budget(c)
  {
    var r := p.(quantity := q);
    FixedForgetsQuantity(c, t, p, q);
    hide FixedReasons, Budget;
  }

  lemma FixedForgetsQuantity(c: Case, t: Thesis, p: Proposal, q: int)
    ensures FixedReasons(c, t, p.(quantity := q)) == FixedReasons(c, t, p)
  {
    hide ThesisReasons, QuoteReasons, SnapshotReasons, Noted;
  }

  /** Nothing the gate says of thesis, quotes or shape is about the size. */
  lemma FixedIsFixed(c: Case, t: Thesis, p: Proposal)
    ensures Appends([], FixedReasons(c, t, p))
    ensures FixedReasons(c, t, p) == [] ==> p.debit > 0.0
  {
    hide ThesisReasons, QuoteReasons, SnapshotReasons, LegReasons, ShapeReasons;
    ThesisAppends([], c, t);
    var thesis := ThesisReasons([], c, t);
    var dte := Noted(thesis, !(InDte(c.policy, p.long) && InDte(c.policy, p.short)), DteOutsidePolicy);
    QuoteAppends(dte, p.long, Long, c.policy.maxBidAskRatio);
    var long := QuoteReasons(dte, p.long, Long, c.policy.maxBidAskRatio);
    QuoteAppends(long, p.short, Short, c.policy.maxBidAskRatio);
    var short := QuoteReasons(long, p.short, Short, c.policy.maxBidAskRatio);
    SnapshotAppends(short, c, p.long, Long);
    var seen := SnapshotReasons(short, c, p.long, Long);
    SnapshotAppends(seen, c, p.short, Short);
    var market := MarketReasons(thesis, c, p);
    LegsAppend(market, t, p);
    ShapeAppends(LegReasons(market, t, p), t, p);
  }

  lemma FixedIsNotResizable(c: Case, t: Thesis, p: Proposal)
    requires FixedReasons(c, t, p) != []
    ensures !Resizable(Reasons(c, t, p))
  {
    FixedIsFixed(c, t, p);
    hide FixedReasons;
    var r := FixedReasons(c, t, p)[0];
    assert !AboutSize(r);
    assert Reasons(c, t, p)[0] == r;
    assert r in Reasons(c, t, p);
  }

  /** The suggestion is the largest quantity the gate would approve, and every smaller one would pass too. */
  lemma SuggestionIsExact(c: Case, t: Thesis, p: Proposal, q: int)
    requires Suggestion(c, t, p).Some?
    ensures Approves(c, t, p, q) <==> 1 <= q <= Suggestion(c, t, p).value
  {
    FixedIsFixed(c, t, p);
    ApprovesExactly(c, t, p, q);
    if FixedReasons(c, t, p) != [] { FixedIsNotResizable(c, t, p); }
    hide FixedReasons, Budget;
    FloorFits(Budget(c), p.debit * 100.0, q);
  }

  /**
    Where the proposal already asks for no more than the policy allows, a rejection with no
    suggestion means that no quantity would be approved.
  */
  lemma NoSuggestionNoCure(c: Case, t: Thesis, p: Proposal, q: int)
    requires p.quantity == c.policy.maxContracts && Reasons(c, t, p) != [] && Suggestion(c, t, p) == None
    ensures !Approves(c, t, p, q)
  {
    FixedIsFixed(c, t, p);
    ApprovesExactly(c, t, p, q);
    ApprovesExactly(c, t, p, p.quantity);
    assert p.(quantity := p.quantity) == p;
    hide FixedReasons, Budget;
    if FixedReasons(c, t, p) == [] && p.quantity > 0 {
      assert Resizable(Reasons(c, t, p));
      FloorFits(Budget(c), p.debit * 100.0, q);
    }
  }

  /**
    Exactly where the gate rejects without a suggestion although some quantity would pass:
    nothing else is wrong, one contract fits the budget, and the quantity asked for was below
    one, or above the policy and inside the budget.
  */
  lemma CurableWithoutSuggestion(c: Case, t: Thesis, p: Proposal)
    ensures Reasons(c, t, p) != [] && Suggestion(c, t, p) == None && (exists q :: Approves(c, t, p, q)) <==>
      && FixedReasons(c, t, p) == [] && c.policy.maxContracts >= 1 && p.debit * 100.0 <= Budget(c)
      && (p.quantity < 1 || (p.quantity > c.policy.maxContracts && p.MaxLoss() <= Budget(c)))
  {
    FixedIsFixed(c, t, p);
    SomeApproved(c, t, p);
    ApprovesExactly(c, t, p, p.quantity);
    assert p.(quantity := p.quantity) == p;
    if FixedReasons(c, t, p) == [] {
      hide FixedReasons, Budget;
      if p.quantity > 0 && p.MaxLoss() > Budget(c) {
        assert Resizable(Reasons(c, t, p));
        FloorFits(Budget(c), p.debit * 100.0, 1);
      }
    }
  }

  /** Some quantity passes exactly when a single contract does. */
  lemma SomeApproved(c: Case, t: Thesis, p: Proposal)
    ensures (exists q :: Approves(c, t, p, q)) <==>
      FixedReasons(c, t, p) == [] && c.policy.maxContracts >= 1 && p.debit * 100.0 <= Budget(c)
  {
    ApprovesExactly(c, t, p, 1);
    FixedIsFixed(c, t, p);
    hide FixedReasons, Budget;
    if q :| Approves(c, t, p, q) {
      hide Approves;
      ApprovesExactly(c, t, p, q);
      assert p.debit * 100.0 * (q - 1) as real >= 0.0;
      assert p.debit * 100.0 * q as real == p.debit * 100.0 + p.debit * 100.0 * (q - 1) as real;
    }
  }

  datatype Decision = TradeCandidate | NoTrade

  datatype Message = ThesisMade | SpreadProposed | RiskJudged | SpreadRevised | RiskJudgedAgain | Decided

  /** The best the gate would let through of this case's spread: its largest approved quantity. */
  ghost predicate Largest(c: Case, t: Thesis, p: Proposal)
  {
    Reasons(c, t, p) == [] && forall q :: Approves(c, t, p, q) ==> q <= p.quantity
  }

  /**
    One bounded revision suffices: the experiment ends in a trade exactly when some quantity
    of the proposed spread passes the gate, and then with the largest of them.
  */
  method RunExperiment(c: Case, t: Thesis)
    returns (decision: Decision, proposal: Option<Proposal>, risk: RiskResult, trace: seq<Message>)
    ensures risk == Gate(c, t, proposal) && (decision == TradeCandidate <==> risk.approved)
    ensures proposal.Some? <==> Propose(c, t, None).Some?
    ensures proposal.Some? ==> proposal.value == Propose(c, t, None).value.(quantity := proposal.value.quantity)
    ensures proposal.Some? ==> (decision == TradeCandidate <==> exists q :: Approves(c, t, proposal.value, q))
    ensures decision == TradeCandidate ==> proposal.Some? && Largest(c, t, proposal.value)
    ensures trace == [ThesisMade, SpreadProposed, RiskJudged]
                     + (if Gate(c, t, Propose(c, t, None)).suggested == None then []
                        else [SpreadRevised, RiskJudgedAgain])
                     + [Decided]
  {
    hide Reasons, Suggestion, Eligible, Pairs, Least;
    var gate := new RiskGate;
    trace := [ThesisMade];
    proposal := OptionsStructure(c, t, None);
    trace := trace + [SpreadProposed];
    risk := gate.Evaluate(c, t, proposal);
    trace := trace + [RiskJudged];
    ghost var first := proposal;
    if !risk.approved && risk.suggested.Some? {
      Cured(c, t, first.value, risk.suggested.value);
      proposal := OptionsStructure(c, t, risk.suggested);
      trace := trace + [SpreadRevised];
      assert proposal == Some(first.value.(quantity := risk.suggested.value));
      risk := gate.Evaluate(c, t, proposal);
      trace := trace + [RiskJudgedAgain];
      assert proposal.value.(quantity := proposal.value.quantity) == proposal.value;
      assert Approves(c, t, proposal.value, proposal.value.quantity);
    } else if proposal.Some? {
      if risk.suggested.Some? { SuggestionIsPositive(c, t, proposal.value); }
      Settled(c, t, proposal.value);
    }
    decision := if risk.approved then TradeCandidate else NoTrade;
    trace := trace + [Decided];
  }

  method OptionsStructure(c: Case, t: Thesis, quantity: Option<int>) returns (r: Option<Proposal>)
    ensures r == Propose(c, t, quantity)
  {
    var eligible := Eligible(c.chain, c.policy, Type(t.direction));
    hide Eligible, Pairs, Least;
    if |eligible| < 2 { return None; }
    var pair := SelectPair(eligible, t.direction, c.underlying);
    if pair == None { return None; }
    var (long, short) := pair.value;
    if long.ask - short.bid <= 0.0 { return None; }
    var chosen := if quantity == None then c.policy.maxContracts else quantity.value;
    r := Some(Proposal(StrategyFor(t.direction), long, short, chosen, long.ask - short.bid));
  }

  lemma SuggestionIsPositive(c: Case, t: Thesis, p: Proposal)
    requires Suggestion(c, t, p).Some?
    ensures Reasons(c, t, p) != [] && p.quantity > 0 && (Suggestion(c, t, p).value >= 1 || c.policy.maxContracts < 1)
  {
  }

  /** The first rejection's suggestion, proposed again on the same legs, is approved. */
  lemma Cured(c: Case, t: Thesis, p: Proposal, s: int)
    requires Suggestion(c, t, p) == Some(s) && p.quantity == c.policy.maxContracts
    ensures Approves(c, t, p, s) && Largest(c, t, p.(quantity := s))
  {
    SuggestionIsExact(c, t, p, s);
    SuggestionIsPositive(c, t, p);
    hide Reasons, Suggestion;
    forall q | Approves(c, t, p.(quantity := s), q) ensures q <= s {
      assert p.(quantity := s).(quantity := q) == p.(quantity := q);
      SuggestionIsExact(c, t, p, q);
    }
  }

  /** With nothing to suggest, the policy's own quantity is approved or none is. */
  lemma Settled(c: Case, t: Thesis, p: Proposal)
    requires p.quantity == c.policy.maxContracts && (Reasons(c, t, p) == [] || Suggestion(c, t, p) == None)
    ensures Reasons(c, t, p) == [] <==> exists q :: Approves(c, t, p, q)
    ensures Reasons(c, t, p) == [] ==> Largest(c, t, p)
  {
    hide Reasons, Suggestion;
    assert p.(quantity := p.quantity) == p;
    if Reasons(c, t, p) == [] {
      assert Approves(c, t, p, p.quantity);
      forall q | Approves(c, t, p, q) ensures q <= p.quantity { ApprovesExactly(c, t, p, q); }
    } else {
      forall q ensures !Approves(c, t, p, q) { NoSuggestionNoCure(c, t, p, q); }
    }
  }

  // ------------------------------------------------------------ what the gate's words mean

  /** What makes the thesis objectionable, whatever is proposed. */
  ghost predicate ThesisSays(c: Case, t: Thesis, r: Reason)
  {
    match r
    case ConfidenceOutsideRange => t.confidence < 0.0 || t.confidence > 1.0
    case ConfidenceBelowPolicy => 0.0 <= t.confidence <= 1.0 && t.confidence < c.policy.minConfidence
    case InsufficientEvidence => |set x | x in t.evidence && x != None| < c.policy.minEvidence
    case MissingInvalidation => !exists x :: x in t.invalidations && x.Some?
    case _ => false
  }

  /** The first quote of the chain under a symbol. */
  ghost predicate IsFirst(chain: seq<Quote>, symbol: nat, q: Quote)
  {
    exists i ::
      && 0 <= i < |chain| && chain[i] == q && q.symbol == symbol
      && forall j :: 0 <= j < i ==> chain[j].symbol != symbol
  }

  /** What makes a leg objectionable in the market. */
  ghost predicate QuoteSays(c: Case, q: Quote, leg: Leg, r: Reason)
  {
    var quoted := q.bid > 0.0 && q.ask > 0.0;
    || (r == NotTwoSided(leg) && !quoted)
    || (r == QuoteCrossed(leg) && quoted && q.bid > q.ask)
    || (r == TooWide(leg) && quoted && q.bid <= q.ask &&
        (q.ask - q.bid) / ((q.bid + q.ask) / 2.0) > c.policy.maxBidAskRatio)
  }

  ghost predicate SnapshotSays(c: Case, q: Quote, leg: Leg, r: Reason)
  {
    || (r == NotInChain(leg) && forall x :: x in c.chain ==> x.symbol != q.symbol)
    || (r == SnapshotMismatch(leg) && exists x :: IsFirst(c.chain, q.symbol, x) && x != q)
  }

  /** What makes the two legs and the claim about them objectionable. */
  predicate ShapeSays(t: Thesis, p: Proposal, r: Reason)
  {
    var kind := if t.direction == Bearish then PutType else CallType;
    match r
    case SameContractTwice => p.long.symbol == p.short.symbol
    case ExpirationMismatch => p.long.expiration != p.short.expiration
    case DteMismatch => p.long.dte != p.short.dte
    case TypeMismatch => p.long.kind != kind || p.short.kind != kind
    case StrategyMismatch => p.strategy != if t.direction == Bearish then PutDebitSpread else CallDebitSpread
    case InvalidShape =>
      if t.direction == Bearish then p.long.strike <= p.short.strike else p.long.strike >= p.short.strike
    case DebitMismatch => p.debit != p.long.ask - p.short.bid
    case NonPositiveDebit => p.debit <= 0.0
    case DebitNotBelowWidth => p.debit >= p.long.strike - p.short.strike && p.debit >= p.short.strike - p.long.strike
    case _ => false
  }

  predicate SizeSays(c: Case, p: Proposal, r: Reason)
  {
    match r
    case QuantityBelowPolicy => p.quantity < 1
    case QuantityAbovePolicy => p.quantity > c.policy.maxContracts
    case LossAboveBudget => p.quantity >= 1 && p.debit * 100.0 * p.quantity as real > c.equity * c.policy.maxRiskPct
    case _ => false
  }

  lemma NotedReads(rs: seq<Reason>, holds: bool, said: Reason, r: Reason)
    ensures r in Noted(rs, holds, said) <==> r in rs || (holds && r == said)
  {
  }

  lemma ThesisReads(rs: seq<Reason>, c: Case, t: Thesis, r: Reason)
    ensures r in ThesisReasons(rs, c, t) <==> r in rs || ThesisSays(c, t, r)
  {
    assert (set x | x in t.evidence && x.Some?) == set x | x in t.evidence && x != None;
  }

  lemma QuoteReads(rs: seq<Reason>, c: Case, q: Quote, leg: Leg, r: Reason)
    ensures r in QuoteReasons(rs, q, leg, c.policy.maxBidAskRatio) <==> r in rs || QuoteSays(c, q, leg, r)
  {
  }

  lemma {:induction false} ObservedReads(chain: seq<Quote>, symbol: nat)
    ensures Observed(chain, symbol) == None <==> forall x :: x in chain ==> x.symbol != symbol
    ensures Observed(chain, symbol).Some? ==> IsFirst(chain, symbol, Observed(chain, symbol).value)
  {
    if chain != [] {
      if chain[0].symbol == symbol {
        assert chain[0] in chain;
      } else {
        ObservedReads(chain[1..], symbol);
        if Observed(chain, symbol).Some? {
          var q := Observed(chain, symbol).value;
          var i :| 0 <= i < |chain| - 1 && chain[1..][i] == q && q.symbol == symbol
                   && forall j :: 0 <= j < i ==> chain[1..][j].symbol != symbol;
          assert chain[i + 1] == q;
          forall j | 0 <= j < i + 1 ensures chain[j].symbol != symbol {
            if j > 0 { assert chain[j] == chain[1..][j - 1]; }
          }
        }
      }
    }
  }

  lemma FirstUnique(chain: seq<Quote>, symbol: nat, a: Quote, b: Quote)
    requires IsFirst(chain, symbol, a) && IsFirst(chain, symbol, b)
    ensures a == b
  {
  }

  lemma SnapshotReads(rs: seq<Reason>, c: Case, q: Quote, leg: Leg, r: Reason)
    ensures r in SnapshotReasons(rs, c, q, leg) <==> r in rs || SnapshotSays(c, q, leg, r)
  {
    ObservedReads(c.chain, q.symbol);
    var seen := Observed(c.chain, q.symbol);
    if seen.Some? {
      forall x | IsFirst(c.chain, q.symbol, x) ensures x == seen.value {
        FirstUnique(c.chain, q.symbol, x, seen.value);
      }
      forall x | IsFirst(c.chain, q.symbol, x) ensures x in c.chain && x.symbol == q.symbol {}
    } else {
      forall x ensures !IsFirst(c.chain, q.symbol, x) {}
    }
    hide IsFirst, Observed;
  }

  lemma ShapeReads(rs: seq<Reason>, t: Thesis, p: Proposal, r: Reason)
    ensures r in ShapeReasons(LegReasons(rs, t, p), t, p) <==> r in rs || ShapeSays(t, p, r)
  {
  }

  lemma SizeReads(rs: seq<Reason>, c: Case, p: Proposal, r: Reason)
    ensures r in SizeReasons(rs, c, p) <==> r in rs || SizeSays(c, p, r)
  {
  }

  /** Everything the gate can say of a proposal, said exactly when it is so. */
  lemma ReasonsRead(c: Case, t: Thesis, p: Proposal, r: Reason)
    ensures r in Reasons(c, t, p) <==>
      || ThesisSays(c, t, r) || ShapeSays(t, p, r) || SizeSays(c, p, r)
      || (r == DteOutsidePolicy &&
          !(c.policy.minDte <= p.long.dte <= c.policy.maxDte && c.policy.minDte <= p.short.dte <= c.policy.maxDte))
      || QuoteSays(c, p.long, Long, r) || QuoteSays(c, p.short, Short, r)
      || SnapshotSays(c, p.long, Long, r) || SnapshotSays(c, p.short, Short, r)
  {
    hide ThesisReasons, QuoteReasons, SnapshotReasons, LegReasons, ShapeReasons, SizeReasons, Noted;
    hide ThesisSays, QuoteSays, SnapshotSays, ShapeSays, SizeSays;
    var limit := c.policy.maxBidAskRatio;
    var thesis := ThesisReasons([], c, t);
    ThesisReads([], c, t, r);
    var dte := Noted(thesis, !(InDte(c.policy, p.long) && InDte(c.policy, p.short)), DteOutsidePolicy);
    NotedReads(thesis, !(InDte(c.policy, p.long) && InDte(c.policy, p.short)), DteOutsidePolicy, r);
    var long := QuoteReasons(dte, p.long, Long, limit);
    QuoteReads(dte, c, p.long, Long, r);
    var short := QuoteReasons(long, p.short, Short, limit);
    QuoteReads(long, c, p.short, Short, r);
    var seen := SnapshotReasons(short, c, p.long, Long);
    SnapshotReads(short, c, p.long, Long, r);
    SnapshotReads(seen, c, p.short, Short, r);
    var market := MarketReasons(thesis, c, p);
    ShapeReads(market, t, p, r);
    SizeReads(FixedReasons(c, t, p), c, p, r);
  }

  /** Two quotes that make a candidate: the direction's type, the policy's days, one expiry, two strikes. */
  predicate Fit(c: Case, t: Thesis, a: Quote, b: Quote)
  {
    var kind := if t.direction == Bearish then PutType else CallType;
    && a in c.chain && b in c.chain && a.kind == kind && b.kind == kind
    && c.policy.minDte <= a.dte <= c.policy.maxDte && a.dte == b.dte && a.expiration == b.expiration
    && a.strike != b.strike
  }

  function Away(q: Quote, u: real): real
  {
    if q.strike < u then u - q.strike else q.strike - u
  }

  /** The long leg of the two: the higher strike when bearish, the lower when bullish. */
  function LongOf(t: Thesis, a: Quote, b: Quote): Quote
  {
    if (t.direction == Bearish) == (a.strike > b.strike) then a else b
  }

  lemma FitIsCandidate(c: Case, t: Thesis, a: Quote, b: Quote)
    requires Fit(c, t, a, b)
    ensures var eligible := Eligible(c.chain, c.policy, Type(t.direction));
      |eligible| >= 2 && Oriented(a, b, t.direction) in Pairs(eligible, t.direction)
  {
    var eligible := Eligible(c.chain, c.policy, Type(t.direction));
    assert a in eligible && b in eligible;
    var i :| 0 <= i < |eligible| && eligible[i] == a;
    var j :| 0 <= j < |eligible| && eligible[j] == b;
    var pair := Oriented(a, b, t.direction);
    PairsExactly(eligible, t.direction, pair);
    if i < j {
      assert Candidate(eligible, t.direction, pair, i, j);
    } else {
      assert Candidate(eligible, t.direction, pair, j, i);
    }
  }

  /** Nearest of the fitting pairs: by both strikes together, of those as near by the long one's. */
  ghost predicate Nearest(c: Case, t: Thesis, long: Quote, short: Quote)
  {
    && Fit(c, t, long, short) && LongOf(t, long, short) == long
    && forall a, b :: Fit(c, t, a, b) ==> NoNearer(t, (long, short), a, b, c.underlying)
  }

  /** What is proposed: a nearest pair at the worst quotes; nothing where none fits or a nearest one costs nothing. */
  lemma ProposalReads(c: Case, t: Thesis, quantity: Option<int>)
    ensures Propose(c, t, quantity).Some? ==>
      var p := Propose(c, t, quantity).value;
      && Nearest(c, t, p.long, p.short) && p.debit == p.long.ask - p.short.bid > 0.0
      && p.quantity == (if quantity == None then c.policy.maxContracts else quantity.value)
      && p.strategy == (if t.direction == Bearish then PutDebitSpread else CallDebitSpread)
    ensures (forall a, b :: !Fit(c, t, a, b)) ==> Propose(c, t, quantity) == None
    ensures Propose(c, t, quantity) == None ==>
      || (forall a, b :: !Fit(c, t, a, b))
      || exists long, short :: Nearest(c, t, long, short) && long.ask - short.bid <= 0.0
  {
    var eligible := Eligible(c.chain, c.policy, Type(t.direction));
    var pairs := Pairs(eligible, t.direction);
    forall a, b | Fit(c, t, a, b) ensures |eligible| >= 2 && pairs != [] { FitIsCandidate(c, t, a, b); }
    if |eligible| >= 2 && pairs != [] {
      LeastIsNearest(c, t);
      hide Pairs, Least, Eligible, Nearest, Fit;
      var pair := Least(pairs, c.underlying);
      assert Nearest(c, t, pair.0, pair.1);
      NearestFits(c, t, pair.0, pair.1);
    }
  }

  lemma NearestFits(c: Case, t: Thesis, long: Quote, short: Quote)
    requires Nearest(c, t, long, short)
    ensures Fit(c, t, long, short)
  {
  }

  lemma LeastIsNearest(c: Case, t: Thesis)
    requires Pairs(Eligible(c.chain, c.policy, Type(t.direction)), t.direction) != []
    ensures var pair := Least(Pairs(Eligible(c.chain, c.policy, Type(t.direction)), t.direction), c.underlying);
      Nearest(c, t, pair.0, pair.1)
  {
    var eligible := Eligible(c.chain, c.policy, Type(t.direction));
    var pairs := Pairs(eligible, t.direction);
    LeastIsLeast(pairs, c.underlying);
    var pair := Least(pairs, c.underlying);
    PairsExactly(eligible, t.direction, pair);
    var i, j :| Candidate(eligible, t.direction, pair, i, j);
    assert eligible[i] in c.chain && eligible[j] in c.chain;
    assert Fit(c, t, pair.0, pair.1);
    forall a, b | Fit(c, t, a, b) ensures NoNearer(t, pair, a, b, c.underlying) {
      FitIsCandidate(c, t, a, b);
      NotLessReads(t, pair, a, b, c.underlying);
    }
    hide Pairs, Least, Less, Eligible, NoNearer;
  }

  predicate NoNearer(t: Thesis, pair: Pair, a: Quote, b: Quote, u: real)
  {
    && Away(pair.0, u) + Away(pair.1, u) <= Away(a, u) + Away(b, u)
    && (Away(pair.0, u) + Away(pair.1, u) == Away(a, u) + Away(b, u) ==> Away(pair.0, u) <= Away(LongOf(t, a, b), u))
  }

  lemma NotLessReads(t: Thesis, pair: Pair, a: Quote, b: Quote, u: real)
    requires a.strike != b.strike && !Less(Oriented(a, b, t.direction), pair, u)
    ensures NoNearer(t, pair, a, b, u)
  {
  }
}
