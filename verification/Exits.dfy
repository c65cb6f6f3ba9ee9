/**
  The exit policy of `exits.py`: `evaluate_exit`, which answers with the governing
  trigger, and `evaluate_triggers`, which records what every rule said.
*/
module Exits {
  import opened Wrappers
  import opened Contracts

  const STOP_LOSS_FRACTION: real := 0.50
  const PROFIT_CAPTURE_FRACTION: real := 0.60
  const SESSION_STOP: int := 3
  const EXPIRY_GUARD_DTE: int := 7
  const CONTRACT_MULTIPLIER: real := 100.0

  datatype Trigger =
    | ExpiryGuard | InvalidationBreached | StopLoss | SessionStop | ProfitCapture
    | Unmeasurable | Hold

  const PRECEDENCE: seq<Trigger> := [ExpiryGuard, InvalidationBreached, StopLoss, SessionStop, ProfitCapture]

  datatype Inputs = Inputs(
    direction: Direction, entryDebit: real, width: real, quantity: int, dte: int,
    underlyingPrice: real, underlyingSource: PriceSource, invalidation: Option<Invalidation>,
    currentValue: Option<real>, sessionsElapsed: int)

  datatype ExitDecision = ExitDecision(
    shouldClose: bool, trigger: Trigger, unrealized: Option<real>, suggestedLimit: Option<real>,
    valueUnmeasurable: bool, invalidationUnverifiable: bool)

  /** The error raised when the stored rule and the position disagree about direction. */
  datatype Fault = DirectionsDisagree

  function StopLevel(s: Inputs): real
  {
    Cents(s.entryDebit * STOP_LOSS_FRACTION)
  }

  function ProfitTarget(s: Inputs): real
  {
    Cents(s.entryDebit + (s.width - s.entryDebit) * PROFIT_CAPTURE_FRACTION)
  }

  /** A recorded rule is judged only against the price series it was written for. */
  predicate Verifiable(s: Inputs)
  {
    s.invalidation.Some? && s.invalidation.value.source == s.underlyingSource
  }

  predicate Disagrees(s: Inputs)
  {
    Verifiable(s) && s.invalidation.value.direction != s.direction
  }

  predicate Breached(s: Inputs)
  {
    Verifiable(s) && s.invalidation.value.Breached(s.underlyingPrice)
  }

  function Unrealized(s: Inputs): Option<real>
  {
    if s.currentValue.None? then None
    else Some(Cents(Times(s.currentValue.value - s.entryDebit, s.quantity)))
  }

  /** An amount per share, for so many contracts. */
  function Times(each: real, quantity: int): real
  {
    each * CONTRACT_MULTIPLIER * quantity as real
  }

  function Unverifiable(s: Inputs): bool
  {
    s.invalidation.Some? && !Verifiable(s)
  }

  /** A closing decision: cross the spread by a tenth, never below one cent. */
  function Close(s: Inputs, trigger: Trigger): ExitDecision
  {
    var limit :=
      if s.currentValue.None? then None
      else
        var cut := Cents(s.currentValue.value * 0.90);
        Some(if cut < 0.01 then 0.01 else cut);
    ExitDecision(true, trigger, Unrealized(s), limit, s.currentValue.None?, Unverifiable(s))
  }

  function EvaluateExit(s: Inputs): Result<ExitDecision, Fault>
  {
    if s.dte <= EXPIRY_GUARD_DTE then Success(Close(s, ExpiryGuard))
    else if Disagrees(s) then Failure(DirectionsDisagree)
    else if Breached(s) then Success(Close(s, InvalidationBreached))
    else if s.currentValue.Some? && s.currentValue.value <= StopLevel(s) then Success(Close(s, StopLoss))
    else if s.sessionsElapsed >= SESSION_STOP then Success(Close(s, SessionStop))
    else if s.currentValue.Some? && s.currentValue.value >= ProfitTarget(s) then Success(Close(s, ProfitCapture))
    else if s.currentValue.None? || Unverifiable(s) then
      Success(ExitDecision(false, Unmeasurable, Unrealized(s), None, s.currentValue.None?, Unverifiable(s)))
    else Success(ExitDecision(false, Hold, Unrealized(s), None, false, false))
  }

  // ------------------------------------------------------------------ the audit rows

  /** `fired` is None where a rule could not be evaluated at all. */
  datatype Row = Row(trigger: Trigger, fired: Option<bool>)

  /** What one rule says on its own, with no regard to the others. */
  function Fired(s: Inputs, trigger: Trigger): Option<bool>
    requires trigger in PRECEDENCE
  {
    match trigger
    case ExpiryGuard => Some(s.dte <= EXPIRY_GUARD_DTE)
    case InvalidationBreached => if Unverifiable(s) then None else Some(Breached(s))
    case StopLoss => if s.currentValue.None? then None else Some(s.currentValue.value <= StopLevel(s))
    case SessionStop => Some(s.sessionsElapsed >= SESSION_STOP)
    case ProfitCapture => if s.currentValue.None? then None else Some(s.currentValue.value >= ProfitTarget(s))
  }

  predicate IsAudit(s: Inputs, rows: seq<Row>)
  {
    && |rows| == |PRECEDENCE|
    && forall k :: 0 <= k < |rows| ==> rows[k] == Row(PRECEDENCE[k], Fired(s, PRECEDENCE[k]))
  }

  method EvaluateTriggers(s: Inputs) returns (r: Result<seq<Row>, Fault>)
    ensures r.Failure? <==> Disagrees(s)
    ensures r.Success? ==> IsAudit(s, r.value)
  {
    hide StopLevel, ProfitTarget;
    var rows := [Row(ExpiryGuard, Some(s.dte <= EXPIRY_GUARD_DTE))];
    if s.invalidation.None? {
      rows := rows + [Row(InvalidationBreached, Some(false))];
    } else if !Verifiable(s) {
      rows := rows + [Row(InvalidationBreached, None)];
    } else {
      if s.invalidation.value.direction != s.direction { return Failure(DirectionsDisagree); }
      rows := rows + [Row(InvalidationBreached, Some(s.invalidation.value.Breached(s.underlyingPrice)))];
    }
    if s.currentValue.None? {
      rows := rows + [Row(StopLoss, None)];
    } else {
      rows := rows + [Row(StopLoss, Some(s.currentValue.value <= StopLevel(s)))];
    }
    rows := rows + [Row(SessionStop, Some(s.sessionsElapsed >= SESSION_STOP))];
    if s.currentValue.None? {
      rows := rows + [Row(ProfitCapture, None)];
    } else {
      rows := rows + [Row(ProfitCapture, Some(s.currentValue.value >= ProfitTarget(s)))];
    }
    assert rows[2].trigger == StopLoss && rows[3].trigger == SessionStop && rows[4].trigger == ProfitCapture;
    r := Success(rows);
  }

  // -------------------------------------------------------- the decision and its audit

  /** The first row that fired. */
  predicate FirstTrue(rows: seq<Row>, k: int)
  {
    && 0 <= k < |rows| && rows[k].fired == Some(true)
    && forall j :: 0 <= j < k ==> rows[j].fired != Some(true)
  }

  /**
    The decision closes on the first row that fired; with none fired it is unmeasurable
    exactly when some rule could not be evaluated, and a hold exactly when every rule
    said no.
  */
  lemma DecisionMatchesAudit(s: Inputs, rows: seq<Row>, d: ExitDecision)
    requires IsAudit(s, rows) && !Disagrees(s) && EvaluateExit(s) == Success(d)
    ensures d.shouldClose <==> exists k :: FirstTrue(rows, k)
    ensures forall k :: FirstTrue(rows, k) ==> d.trigger == rows[k].trigger
    ensures d.trigger == Unmeasurable <==>
      (forall k :: 0 <= k < |rows| ==> rows[k].fired != Some(true)) &&
      (exists k :: 0 <= k < |rows| && rows[k].fired == None)
    ensures d.trigger == Hold <==> forall k :: 0 <= k < |rows| ==> rows[k].fired == Some(false)
    ensures d.suggestedLimit.Some? <==> d.shouldClose && s.currentValue.Some?
  {
    hide StopLevel, ProfitTarget, Cents, HalfEven;
    assert rows[0].fired == Fired(s, ExpiryGuard) && rows[1].fired == Fired(s, InvalidationBreached);
    assert rows[2].fired == Fired(s, StopLoss) && rows[3].fired == Fired(s, SessionStop);
    assert rows[4].fired == Fired(s, ProfitCapture);
    if d.trigger in PRECEDENCE {
      var k :| 0 <= k < |PRECEDENCE| && PRECEDENCE[k] == d.trigger;
      assert FirstTrue(rows, k);
    }
  }

  /**
    The two answer together except in one family: at or inside the expiry guard, with a
    verifiable rule of the other direction, the policy closes and its audit raises.
  */
  lemma AuditRaisesWhereExitCloses(s: Inputs)
    ensures EvaluateExit(s).Failure? <==> Disagrees(s) && s.dte > EXPIRY_GUARD_DTE
    ensures s.dte <= EXPIRY_GUARD_DTE ==> EvaluateExit(s) == Success(Close(s, ExpiryGuard))
  {
  }

  // --------------------------------------------------------------- a missing premium

  function Hidden(s: Inputs): Inputs
  {
    s.(currentValue := None)
  }

  predicate PremiumIndependent(t: Trigger)
  {
    t == ExpiryGuard || t == InvalidationBreached || t == SessionStop
  }

  function Urgency(t: Trigger): nat
  {
    match t
    case ExpiryGuard => 0 case InvalidationBreached => 1 case StopLoss => 2 case SessionStop => 3
    case ProfitCapture => 4 case Unmeasurable => 5 case Hold => 5
  }

  /**
    A missing quote suppresses no rule that does not read it: a premium-independent
    trigger is unchanged, and whatever still closes without the premium closed at
    least as urgently with it.
  */
  lemma HidingThePremium(s: Inputs)
    ensures EvaluateExit(s).Failure? <==> EvaluateExit(Hidden(s)).Failure?
    ensures EvaluateExit(s).Success? ==>
      var d, h := EvaluateExit(s).value, EvaluateExit(Hidden(s)).value;
      && (d.shouldClose && PremiumIndependent(d.trigger) ==> h.shouldClose && h.trigger == d.trigger)
      && (h.shouldClose ==> d.shouldClose && PremiumIndependent(h.trigger) && Urgency(d.trigger) <= Urgency(h.trigger))
      && (!h.shouldClose ==> h.trigger == Unmeasurable)
  {
    hide StopLevel, ProfitTarget;
  }

  // ----------------------------------------------------------------- stop and target

  /** The target before it is rounded, in cents. */
  function TargetCents(s: Inputs): real
  {
    (s.entryDebit + (s.width - s.entryDebit) * PROFIT_CAPTURE_FRACTION) * 100.0
  }

  /**
    For every debit below the width, whole cents or not: the rounded stop is strictly below
    the rounded target from two cents of width on, and below that exactly where rounding
    keeps them apart.
  */
  lemma StopBelowTarget(s: Inputs)
    requires 0.0 < s.entryDebit < s.width
    ensures StopLevel(s) < ProfitTarget(s) <==>
      || s.width >= 0.02
      || (if s.entryDebit <= 0.01 then TargetCents(s) > 0.5 else TargetCents(s) >= 1.5)
  {
    var stop, target := s.entryDebit * STOP_LOSS_FRACTION * 100.0, TargetCents(s);
    assert target == 40.0 * s.entryDebit + 60.0 * s.width;
    assert stop == 50.0 * s.entryDebit;
    if s.width >= 0.02 {
      assert target - stop > 1.0;
    } else {
      RoundsBelowOne(stop);
      RoundsBelowTwo(target);
    }
  }

  /** A spread one cent or more wide, in whole cents, always keeps the two apart. */
  lemma WholeCentWidthKeepsApart(s: Inputs, cents: int)
    requires s.width == cents as real / 100.0 && 0.0 < s.entryDebit < s.width
    ensures StopLevel(s) < ProfitTarget(s)
  {
    StopBelowTarget(s);
    assert cents >= 1;
    if cents == 1 { assert TargetCents(s) == 40.0 * s.entryDebit + 0.6; }
  }

  /** For a debit of whole cents the stop is below it and the target is not. */
  lemma WholeCentDebitBetween(s: Inputs, debitCents: int)
    requires s.entryDebit == debitCents as real / 100.0 && 0.0 < s.entryDebit < s.width
    ensures StopLevel(s) < s.entryDebit <= ProfitTarget(s)
  {
    var half := s.entryDebit * STOP_LOSS_FRACTION * 100.0;
    assert half == debitCents as real / 2.0;
    var target := (s.entryDebit + (s.width - s.entryDebit) * PROFIT_CAPTURE_FRACTION) * 100.0;
    assert target >= debitCents as real;
    HalfEvenMonotone(debitCents as real, target);
    HalfEvenOfInt(debitCents);
    HalfBelow(debitCents);
  }

  lemma HalfBelow(n: int)
    requires n >= 1
    ensures HalfEven(n as real / 2.0) < n
  {
    if n == 1 {
      assert (1.0 / 2.0).Floor == 0;
    }
  }

  lemma RoundsBelowOne(x: real)
    requires 0.0 < x < 1.0
    ensures HalfEven(x) == if x <= 0.5 then 0 else 1
  {
    assert x.Floor == 0;
  }

  lemma RoundsBelowTwo(x: real)
    requires 0.0 < x < 2.0
    ensures HalfEven(x) == if x <= 0.5 then 0 else if x < 1.5 then 1 else 2
  {
    assert x < 1.0 ==> x.Floor == 0;
    assert x >= 1.0 ==> x.Floor == 1;
  }

  /** Where the two do meet, a value on both is closed as a loss. */
  lemma SharedLevelIsAStop(s: Inputs)
    requires s.currentValue.Some? && ProfitTarget(s) <= s.currentValue.value <= StopLevel(s)
    requires s.dte > EXPIRY_GUARD_DTE && !Disagrees(s) && !Breached(s)
    ensures EvaluateExit(s).Success? && EvaluateExit(s).value.shouldClose && EvaluateExit(s).value.trigger == StopLoss
  {
    hide StopLevel, ProfitTarget;
  }

  // ------------------------------------------------------------ what the answers read as

  /** The stop is half the debit and the target the debit plus three fifths of what is left, to the nearest cent. */
  lemma LevelsRead(s: Inputs)
    ensures -0.005 <= StopLevel(s) - s.entryDebit / 2.0 <= 0.005
    ensures -0.005 <= ProfitTarget(s) - (0.4 * s.entryDebit + 0.6 * s.width) <= 0.005
  {
    var stop := CentsNearest(s.entryDebit * STOP_LOSS_FRACTION);
    var target := CentsNearest(s.entryDebit + (s.width - s.entryDebit) * PROFIT_CAPTURE_FRACTION);
    assert s.entryDebit * STOP_LOSS_FRACTION == s.entryDebit / 2.0;
    assert s.entryDebit + (s.width - s.entryDebit) * PROFIT_CAPTURE_FRACTION == 0.4 * s.entryDebit + 0.6 * s.width;
    hide Cents;
  }

  /** The rule written for the price series at hand says the price has crossed its level. */
  predicate RuleSaysOut(s: Inputs)
  {
    && s.invalidation.Some? && s.invalidation.value.source == s.underlyingSource
    && if s.invalidation.value.direction == Bullish then s.underlyingPrice <= s.invalidation.value.level
       else s.underlyingPrice >= s.invalidation.value.level
  }

  /**
    Each closing trigger, in days, sessions and prices: seven days to expiry, the rule, the
    stop, three completed sessions, the target, the first of them that holds.
  */
  lemma TriggersRead(s: Inputs)
    requires s.dte <= 7 || !Disagrees(s)
    ensures EvaluateExit(s).Success?
    ensures var d := EvaluateExit(s).value;
      var stopped := s.currentValue.Some? && s.currentValue.value <= StopLevel(s);
      var captured := s.currentValue.Some? && s.currentValue.value >= ProfitTarget(s);
      && (d.trigger == ExpiryGuard <==> s.dte <= 7)
      && (d.trigger == InvalidationBreached <==> s.dte > 7 && RuleSaysOut(s))
      && (d.trigger == StopLoss <==> s.dte > 7 && !RuleSaysOut(s) && stopped)
      && (d.trigger == SessionStop <==> s.dte > 7 && !RuleSaysOut(s) && !stopped && s.sessionsElapsed >= 3)
      && (d.trigger == ProfitCapture <==>
            s.dte > 7 && !RuleSaysOut(s) && !stopped && s.sessionsElapsed < 3 && captured)
      && (d.shouldClose <==> s.dte <= 7 || RuleSaysOut(s) || stopped || s.sessionsElapsed >= 3 || captured)
  {
    hide StopLevel, ProfitTarget;
  }

  /**
    The amounts an answer carries: the result of closing at the value for a hundred shares a
    contract, a gain positive; and for a close a limit a tenth below the value, at least a cent.
  */
  lemma AmountsRead(s: Inputs)
    requires EvaluateExit(s).Success?
    ensures var d := EvaluateExit(s).value;
      && (d.unrealized.Some? <==> s.currentValue.Some?)
      && (s.currentValue.Some? ==>
            var gain := (s.currentValue.value - s.entryDebit) * 100.0 * s.quantity as real;
            -0.005 <= d.unrealized.value - gain <= 0.005)
      && (d.shouldClose && s.currentValue.Some? ==>
            && d.suggestedLimit.Some? && d.suggestedLimit.value >= 0.01
            && -0.005 <= d.suggestedLimit.value - Max(s.currentValue.value * 0.90, 0.01) <= 0.005)
      && (d.valueUnmeasurable <==> s.currentValue == None)
      && (d.invalidationUnverifiable <==>
            s.invalidation.Some? && s.invalidation.value.source != s.underlyingSource)
  {
    hide StopLevel, ProfitTarget, Unrealized, Cents;
    GainReads(s);
    if s.currentValue.Some? { var cut := CentsNearest(s.currentValue.value * 0.90); }
  }

  lemma GainReads(s: Inputs)
    ensures Unrealized(s).Some? <==> s.currentValue.Some?
    ensures s.currentValue.Some? ==>
      var gain := (s.currentValue.value - s.entryDebit) * 100.0 * s.quantity as real;
      -0.005 <= Unrealized(s).value - gain <= 0.005
  {
    if s.currentValue.Some? {
      TimesReads(s.currentValue.value - s.entryDebit, s.quantity);
      hide Times;
      var n := CentsNearest(Times(s.currentValue.value - s.entryDebit, s.quantity));
      hide Cents;
    }
  }

  lemma TimesReads(each: real, quantity: int)
    ensures Times(each, quantity) == each * 100.0 * quantity as real
  {
  }

  /** What the audit says of each rule by itself, the rules after the one that fired included. */
  lemma AuditReads(s: Inputs, rows: seq<Row>)
    requires IsAudit(s, rows)
    ensures |rows| == 5
    ensures rows[0] == Row(ExpiryGuard, Some(s.dte <= 7)) && rows[3] == Row(SessionStop, Some(s.sessionsElapsed >= 3))
    ensures rows[1] == Row(InvalidationBreached,
      if s.invalidation.Some? && s.invalidation.value.source != s.underlyingSource then None else Some(RuleSaysOut(s)))
    ensures s.currentValue.None? ==> rows[2] == Row(StopLoss, None) && rows[4] == Row(ProfitCapture, None)
    ensures s.currentValue.Some? ==>
      && rows[2] == Row(StopLoss, Some(s.currentValue.value <= StopLevel(s)))
      && rows[4] == Row(ProfitCapture, Some(s.currentValue.value >= ProfitTarget(s)))
  {
    hide StopLevel, ProfitTarget;
    assert rows[0] == Row(PRECEDENCE[0], Fired(s, PRECEDENCE[0]));
    assert rows[1] == Row(PRECEDENCE[1], Fired(s, PRECEDENCE[1]));
    assert rows[2] == Row(PRECEDENCE[2], Fired(s, PRECEDENCE[2]));
    assert rows[3] == Row(PRECEDENCE[3], Fired(s, PRECEDENCE[3]));
    assert rows[4] == Row(PRECEDENCE[4], Fired(s, PRECEDENCE[4]));
  }
}
