/**
  The setup classifier of `components.py`, and the counterfactual attribution of
  `veto_replay.attribute` that classifies a session's signals with some removed.
*/
module Attribution {
  import opened Wrappers
  import opened Arrange
  import opened Contracts

  const MIN_STRUCTURE: real := 0.60
  const MIN_CONFIRMATION: real := 0.50
  const VETO: real := 0.70

  datatype Family =
    | Structure | Momentum | Participation | RelativeStrength | VolatilityOptions | MacroLiquidity | Event
    | SentimentPositioning | ExecutionQuality | PortfolioRisk

  /** `id` stands for the signal's name by its alphabetical rank, which is all that is read of it. */
  datatype Signal = Signal(id: nat, family: Family, direction: Direction, strength: real)

  type Signals = seq<Signal>

  /** A snapshot refuses signals that share an id. */
  ghost predicate Unique(signals: Signals)
  {
    forall i, j :: 0 <= i < j < |signals| ==> signals[i].id != signals[j].id
  }

  datatype Setup = Setup(direction: Direction, evidence: set<nat>, invalidation: Invalidation)

  /** `max(..., key=(strength, signal_id))` */
  predicate Before(a: Signal, b: Signal)
  {
    a.strength < b.strength || (a.strength == b.strength && a.id < b.id)
  }

  function Strongest(signals: Signals): (m: Signal)
    requires signals != []
    ensures m in signals && forall s :: s in signals ==> !Before(m, s)
  {
    var last := signals[|signals| - 1];
    var front := signals[..|signals| - 1];
    assert signals == front + [last];
    if front == [] then last
    else
      var m := Strongest(front);
      if Before(m, last) then last else m
  }

  predicate IsStructure(s: Signal) { s.family == Structure && s.direction != Neutral }

  predicate Anchors(s: Signal) { IsStructure(s) && s.strength >= MIN_STRUCTURE }

  /** Strong enough, and of the other direction. */
  predicate Contradicts(s: Signal, d: Direction) { s.direction == Opposite(d) && s.strength >= VETO }

  /** From another family, and of the same direction. */
  predicate Confirms(s: Signal, d: Direction)
  {
    s.direction == d && s.family != Structure && s.strength >= MIN_CONFIRMATION
  }

  function Rule(price: real, source: PriceSource, d: Direction): Invalidation
  {
    Invalidation(Cents(price * (if d == Bullish then 0.985 else 1.015)), d, source)
  }

  function Classify(signals: Signals, price: real, source: PriceSource): Option<Setup>
  {
    var structure := Filter(signals, (s: Signal) => Anchors(s));
    if structure == [] then None
    else
      var anchor := Strongest(structure);
      var d := anchor.direction;
      var confirmations := Filter(signals, (s: Signal) => Confirms(s, d));
      if Filter(signals, (s: Signal) => Contradicts(s, d)) != [] || confirmations == [] then None
      else Some(Setup(d, {anchor.id, Strongest(confirmations).id}, Rule(price, source, d)))
  }

  // ------------------------------------------------------------------- the attribution

  datatype Bucket = NoSetup | OutOfScope | Permitted | BreadthVetoed | OtherVetoes

  datatype Verdict = Verdict(bucket: Bucket, setup: Option<Setup>)

  function Attribute(signals: Signals, price: real): Verdict
  {
    var structure := Filter(signals, (s: Signal) => IsStructure(s));
    if structure == [] then Verdict(NoSetup, None)
    else
      var anchor := Strongest(structure);
      if anchor.strength < MIN_STRUCTURE then Verdict(NoSetup, None)
      else if anchor.direction != Bullish then Verdict(OutOfScope, None)
      else AttributeVeto(signals, price)
  }

  function WithoutBreadth(signals: Signals): Signals
  {
    Filter(signals, (s: Signal) => !(s.family == Participation && Opposes(s)))
  }

  function WithoutOpposing(signals: Signals): Signals
  {
    Filter(signals, (s: Signal) => !Opposes(s))
  }

  /** Under a qualifying bullish anchor: classify, then classify with the opposing signals removed. */
  function AttributeVeto(signals: Signals, price: real): Verdict
  {
    var source := CompletedDailyClose;
    var baseline := Classify(signals, price, source);
    if baseline.Some? then Verdict(Permitted, baseline)
    else if Filter(signals, (s: Signal) => Opposes(s)) == [] then Verdict(NoSetup, None)
    else
      var counterfactual := Classify(WithoutBreadth(signals), price, source);
      if counterfactual.Some? then Verdict(BreadthVetoed, counterfactual)
      else if Classify(WithoutOpposing(signals), price, source).Some? then Verdict(OtherVetoes, None)
      else Verdict(NoSetup, None)
  }

  /** Neither bullish nor neutral, at or above the veto line. */
  predicate Opposes(s: Signal)
  {
    s.direction != Bullish && s.direction != Neutral && s.strength >= VETO
  }

  // --------------------------------------------------------------------- what it means

  /** The strongest directional structure signal of the session, bullish and strong enough. */
  ghost predicate BullishAnchor(signals: Signals, anchor: Signal)
  {
    && anchor in signals && Anchors(anchor) && anchor.direction == Bullish
    && forall s :: s in signals && IsStructure(s) ==> !Before(anchor, s)
  }

  ghost predicate HasConfirmation(signals: Signals)
  {
    exists s :: s in signals && Confirms(s, Bullish)
  }

  /** The bullish setup an anchor and a confirmation make. */
  function SetupFrom(anchor: Signal, confirmation: Signal, price: real, source: PriceSource): Setup
  {
    Setup(Bullish, {anchor.id, confirmation.id}, Rule(price, source, Bullish))
  }

  lemma StrongestUnique(signals: Signals, m: Signal, all: Signals)
    requires signals != [] && Unique(all) && m in signals
    requires forall s :: s in signals ==> s in all && !Before(m, s)
    ensures Strongest(signals) == m
  {
    var x := Strongest(signals);
    assert x.id == m.id;
    var i :| 0 <= i < |all| && all[i] == x;
    var j :| 0 <= j < |all| && all[j] == m;
  }

  /** The classifier under a bullish anchor: it qualifies exactly with a confirmation and no contradiction. */
  lemma ClassifyUnderAnchor(signals: Signals, price: real, source: PriceSource, anchor: Signal, all: Signals)
    requires Unique(all) && (forall s :: s in signals ==> s in all) && BullishAnchor(signals, anchor)
    ensures Classify(signals, price, source).Some? <==>
      HasConfirmation(signals) && forall s :: s in signals ==> !Opposes(s)
    ensures Classify(signals, price, source).Some? ==>
      exists c :: IsConfirmation(signals, c) &&
        Classify(signals, price, source) == Some(SetupFrom(anchor, c, price, source))
  {
    var structure := Filter(signals, (s: Signal) => Anchors(s));
    assert anchor in structure;
    StrongestUnique(structure, anchor, all);
    var confirmations := Filter(signals, (s: Signal) => Confirms(s, Bullish));
    var contradictions := Filter(signals, (s: Signal) => Contradicts(s, Bullish));
    assert forall s :: Contradicts(s, Bullish) <==> Opposes(s);
    if contradictions != [] { assert contradictions[0] in contradictions; }
    if confirmations != [] { assert IsConfirmation(signals, Strongest(confirmations)); }
  }

  /** The strongest confirmation. */
  ghost predicate IsConfirmation(signals: Signals, c: Signal)
  {
    && c in signals && Confirms(c, Bullish)
    && forall s :: s in signals && Confirms(s, Bullish) ==> !Before(c, s)
  }

  /** Removing opposing signals touches neither the anchor nor any confirmation. */
  lemma RemovalKeeps(signals: Signals, fewer: Signals, anchor: Signal)
    requires forall s :: s in fewer ==> s in signals
    requires forall s :: s in signals && !Opposes(s) ==> s in fewer
    requires BullishAnchor(signals, anchor)
    ensures BullishAnchor(fewer, anchor)
    ensures HasConfirmation(fewer) <==> HasConfirmation(signals)
    ensures forall c :: IsConfirmation(fewer, c) <==> IsConfirmation(signals, c)
  {
  }

  lemma AnchorOf(signals: Signals)
    requires Unique(signals)
    ensures forall a :: BullishAnchor(signals, a) ==>
      var structure := Filter(signals, (s: Signal) => IsStructure(s));
      structure != [] && Strongest(structure) == a
    ensures var structure := Filter(signals, (s: Signal) => IsStructure(s));
      structure != [] && Strongest(structure).strength >= MIN_STRUCTURE && Strongest(structure).direction == Bullish
      ==> BullishAnchor(signals, Strongest(structure))
  {
    var structure := Filter(signals, (s: Signal) => IsStructure(s));
    forall a | BullishAnchor(signals, a) ensures structure != [] && Strongest(structure) == a {
      assert a in structure;
      StrongestUnique(structure, a, signals);
    }
  }

  lemma AttributeIsVeto(signals: Signals, price: real, anchor: Signal)
    requires Unique(signals) && BullishAnchor(signals, anchor)
    ensures Attribute(signals, price) == AttributeVeto(signals, price)
  {
    AnchorOf(signals);
  }

  /**
    Under a qualifying bullish anchor with a confirmation the attribution is decided by
    the opposing signals alone: permitted with none, breadth-vetoed when there are some
    and all are participation, otherwise vetoed by something else. Without a
    confirmation there is no setup.
  */
  lemma AttributionCharacterised(signals: Signals, price: real, anchor: Signal)
    requires Unique(signals) && BullishAnchor(signals, anchor)
    ensures var b := Attribute(signals, price).bucket;
      && (b == Permitted <==> HasConfirmation(signals) && forall s :: s in signals ==> !Opposes(s))
      && (b == BreadthVetoed <==>
            && HasConfirmation(signals)
            && (exists s :: s in signals && Opposes(s))
            && forall s :: s in signals && Opposes(s) ==> s.family == Participation)
      && (b == OtherVetoes <==>
            HasConfirmation(signals) && exists s :: s in signals && Opposes(s) && s.family != Participation)
      && (b == NoSetup <==> !HasConfirmation(signals))
  {
    AttributeIsVeto(signals, price, anchor);
    var source := CompletedDailyClose;
    var opposing := Filter(signals, (s: Signal) => Opposes(s));
    var without, clean := WithoutBreadth(signals), WithoutOpposing(signals);
    if opposing != [] { assert opposing[0] in opposing; }
    RemovalKeeps(signals, without, anchor);
    RemovalKeeps(signals, clean, anchor);
    ClassifyUnderAnchor(signals, price, source, anchor, signals);
    ClassifyUnderAnchor(without, price, source, anchor, signals);
    ClassifyUnderAnchor(clean, price, source, anchor, signals);
    hide Classify, BullishAnchor, IsConfirmation, Attribute, HasConfirmation;
  }

  /** Every other session is out of scope or has no setup: the buckets are total and exclusive. */
  lemma AttributionElsewhere(signals: Signals, price: real)
    requires Unique(signals) && forall a :: !BullishAnchor(signals, a)
    ensures Attribute(signals, price).bucket == OutOfScope <==>
      exists a :: a in signals && Anchors(a) && a.direction == Bearish
                  && forall s :: s in signals && IsStructure(s) ==> !Before(a, s)
    ensures Attribute(signals, price).bucket != OutOfScope ==> Attribute(signals, price).bucket == NoSetup
  {
    AnchorOf(signals);
    var structure := Filter(signals, (s: Signal) => IsStructure(s));
    if structure != [] {
      var m := Strongest(structure);
      assert m in structure;
      forall a | a in signals && Anchors(a) && a.direction == Bearish &&
                 forall s :: s in signals && IsStructure(s) ==> !Before(a, s)
        ensures m == a
      {
        StrongestUnique(structure, a, signals);
      }
    }
  }

  /** The setup a breadth veto is charged with is the one the full signals hold: same anchor, confirmation and level. */
  lemma CounterfactualKeepsSetup(signals: Signals, price: real, anchor: Signal)
    requires Unique(signals) && BullishAnchor(signals, anchor)
    requires Attribute(signals, price).bucket == BreadthVetoed || Attribute(signals, price).bucket == Permitted
    ensures exists c :: IsConfirmation(signals, c) &&
              Attribute(signals, price).setup == Some(SetupFrom(anchor, c, price, CompletedDailyClose))
  {
    AttributeIsVeto(signals, price, anchor);
    var source := CompletedDailyClose;
    var without := WithoutBreadth(signals);
    RemovalKeeps(signals, without, anchor);
    ClassifyUnderAnchor(signals, price, source, anchor, signals);
    ClassifyUnderAnchor(without, price, source, anchor, signals);
    hide Classify, BullishAnchor, IsConfirmation, SetupFrom, Rule, HasConfirmation, Before, Attribute, WithoutBreadth;
  }

  // ------------------------------------------------------------ what a setup reads as

  /** The strongest of the directional structure signals of at least 0.60. */
  ghost predicate IsAnchor(signals: Signals, a: Signal)
  {
    && a in signals && a.family == Structure && a.direction != Neutral && a.strength >= 0.60
    && forall s :: s in signals && s.family == Structure && s.direction != Neutral && s.strength >= 0.60 ==>
         s == a || s.strength < a.strength || (s.strength == a.strength && s.id < a.id)
  }

  /** The strongest signal of another family and the same direction, of at least 0.50. */
  ghost predicate IsSupport(signals: Signals, a: Signal, c: Signal)
  {
    && c in signals && c.family != Structure && c.direction == a.direction && c.strength >= 0.50
    && forall s :: s in signals && s.family != Structure && s.direction == a.direction && s.strength >= 0.50 ==>
         s == c || s.strength < c.strength || (s.strength == c.strength && s.id < c.id)
  }

  /** No signal of the other direction of at least 0.70. */
  ghost predicate NoVeto(signals: Signals, a: Signal)
  {
    forall s :: s in signals && s.strength >= 0.70 ==>
      s.direction == Neutral || s.direction == a.direction
  }

  lemma StrongestIs(signals: Signals, chosen: Signals)
    requires Unique(signals) && chosen != [] && forall s :: s in chosen ==> s in signals
    ensures forall s :: s in chosen ==> var m := Strongest(chosen);
      s == m || s.strength < m.strength || (s.strength == m.strength && s.id < m.id)
  {
    var m := Strongest(chosen);
    forall s | s in chosen ensures s == m || s.strength < m.strength || (s.strength == m.strength && s.id < m.id) {
      if s.id == m.id {
        var i :| 0 <= i < |signals| && signals[i] == s;
        var j :| 0 <= j < |signals| && signals[j] == m;
      }
    }
  }

  /**
    The classifier, for both directions: it qualifies exactly when an anchor has a support
    and no veto, and then with those two as evidence and a level one and a half percent on
    the losing side of the price, to the cent.
  */
  lemma ClassifyReads(signals: Signals, price: real, source: PriceSource)
    requires Unique(signals)
    ensures Classify(signals, price, source).Some? <==>
              exists a, c :: IsAnchor(signals, a) && IsSupport(signals, a, c) && NoVeto(signals, a)
    ensures forall a, c :: IsAnchor(signals, a) && IsSupport(signals, a, c) && NoVeto(signals, a) ==>
      var setup := Classify(signals, price, source).value;
      && setup.direction == a.direction && setup.evidence == {a.id, c.id}
      && setup.invalidation.direction == a.direction && setup.invalidation.source == source
      && -0.005 <= setup.invalidation.level - price * (if a.direction == Bullish then 0.985 else 1.015) <= 0.005
  {
    var structure := Filter(signals, (s: Signal) => Anchors(s));
    if structure == [] {
      assert forall s :: s in signals && Anchors(s) ==> s in structure;
    } else {
      StrongestIs(signals, structure);
      var a := Strongest(structure);
      assert a in structure;
      assert IsAnchor(signals, a);
      forall b | IsAnchor(signals, b) ensures a == b { assert b in structure; }
      UnderAnchor(signals, price, source, a);
      hide IsAnchor, IsSupport, NoVeto, Classify, Rule;
    }
  }

  lemma UnderAnchor(signals: Signals, price: real, source: PriceSource, a: Signal)
    requires Unique(signals)
    requires var structure := Filter(signals, (s: Signal) => Anchors(s)); structure != [] && Strongest(structure) == a
    ensures Classify(signals, price, source).Some? <==> (exists c :: IsSupport(signals, a, c)) && NoVeto(signals, a)
    ensures forall c :: IsSupport(signals, a, c) && NoVeto(signals, a) ==>
      var setup := Classify(signals, price, source).value;
      && setup.direction == a.direction && setup.evidence == {a.id, c.id}
      && setup.invalidation.direction == a.direction && setup.invalidation.source == source
      && -0.005 <= setup.invalidation.level - price * (if a.direction == Bullish then 0.985 else 1.015) <= 0.005
  {
    var d := a.direction;
    assert a in Filter(signals, (s: Signal) => Anchors(s));
    var confirmations := Filter(signals, (s: Signal) => Confirms(s, d));
    var contradictions := Filter(signals, (s: Signal) => Contradicts(s, d));
    if contradictions != [] { assert contradictions[0] in contradictions; }
    var n := CentsNearest(price * (if d == Bullish then 0.985 else 1.015));
    hide Cents;
    if confirmations != [] {
      StrongestIs(signals, confirmations);
      var c := Strongest(confirmations);
      assert c in confirmations;
      assert IsSupport(signals, a, c);
      forall b | IsSupport(signals, a, b) ensures b == c { assert b in confirmations; }
    } else {
      assert forall s :: s in signals && Confirms(s, d) ==> s in confirmations;
    }
  }
}
