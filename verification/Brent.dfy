/**
  `veto_pricing.brent` and `implied_volatility`, over exact reals. The function being
  solved is any function at all: nothing here needs it to be continuous.
*/
module Brent {
  import opened Wrappers
  import opened Contracts

  const ITERATIONS: nat := 200

  /** The loop's variables: `b` is the best point, `a` the other end, `c` and `d` the two before. */
  datatype State = State(a: real, b: real, c: real, d: real, fa: real, fb: real, fc: real, bisected: bool)

  /** The two ends carry values of opposite sign, and `b` the smaller one. */
  predicate Bracketed(f: real -> real, s: State)
  {
    && s.fa == f(s.a) && s.fb == f(s.b) && s.fc == f(s.c)
    && (s.fa > 0.0) != (s.fb > 0.0)
    && Abs(s.fb) <= Abs(s.fa)
  }

  function Low(s: State): real { Min(s.a, s.b) }
  function High(s: State): real { Max(s.a, s.b) }
  function Width(s: State): real { Abs(s.b - s.a) }

  /** `numerator / (p * q)`: neither factor of a divisor is ever zero. */
  function Over(numerator: real, p: real, q: real): real
    requires p != 0.0 && q != 0.0
  {
    ProductNonZero(p, q);
    numerator / (p * q)
  }

  lemma ProductNonZero(p: real, q: real)
    requires p != 0.0 && q != 0.0
    ensures p * q != 0.0
  {
  }

  function Three(x: real, y: real, z: real): real { x * y * z }

  /** Inverse quadratic interpolation through three points, or the secant through two. */
  function Interpolated(f: real -> real, s: State): real
    requires Bracketed(f, s)
  {
    if s.fa != s.fc && s.fb != s.fc then
      Over(Three(s.a, s.fb, s.fc), s.fa - s.fb, s.fa - s.fc)
      + Over(Three(s.b, s.fa, s.fc), s.fb - s.fa, s.fb - s.fc)
      + Over(Three(s.c, s.fa, s.fb), s.fc - s.fa, s.fc - s.fb)
    else
      s.b - s.fb * (s.b - s.a) / (s.fb - s.fa)
  }

  /** Whether the interpolated point is refused, and the middle taken instead. */
  predicate Refused(s: State, x: real)
  {
    var near := (3.0 * s.a + s.b) / 4.0;
    || !(Min(near, s.b) < x < Max(near, s.b))
    || Abs(x - s.b) >= (if s.bisected then Abs(s.b - s.c) else Abs(s.c - s.d)) / 2.0
  }

  function Middle(s: State): real { (s.a + s.b) / 2.0 }

  /** The point an iteration evaluates. */
  function Probe(s: State, x: real): real
  {
    if Refused(s, x) then Middle(s) else x
  }

  /** The bracket with `x` in place of the end whose sign it shares, best point last. */
  function Replace(s: State, x: real, fx: real, bisected: bool): State
  {
    var (a, fa, b, fb) := if (s.fa > 0.0) != (fx > 0.0) then (s.a, s.fa, x, fx) else (x, fx, s.b, s.fb);
    if Abs(fa) < Abs(fb) then State(b, a, s.b, s.c, fb, fa, s.fb, bisected)
    else State(a, b, s.b, s.c, fa, fb, s.fb, bisected)
  }

  /** One iteration, given the interpolated point. */
  function StepWith(f: real -> real, s: State, x: real): State
  {
    Replace(s, Probe(s, x), f(Probe(s, x)), Refused(s, x))
  }

  /** An interpolation rule: the point to try at each state. The bracket's laws hold for any. */
  type Rule = State -> real

  /** The source's rule. Off a bracket it is never asked. */
  function Interpolation(f: real -> real): Rule
  {
    s => if Bracketed(f, s) then Interpolated(f, s) else s.b
  }

  function Step(f: real -> real, rule: Rule, s: State): State
  {
    StepWith(f, s, rule(s))
  }

  // ------------------------------------------------------------ one iteration

  lemma InterpolatedInside(s: State, x: real)
    requires s.a != s.b && !Refused(s, x)
    ensures Low(s) < x < High(s)
  {
  }

  /** The probed point is strictly inside the bracket. */
  lemma ProbeInside(s: State, x: real)
    requires s.a != s.b
    ensures Low(s) < Probe(s, x) < High(s)
  {
    if !Refused(s, x) { InterpolatedInside(s, x); }
  }

  lemma ReplaceNarrows(f: real -> real, s: State, x: real, bisected: bool)
    requires Bracketed(f, s) && Low(s) < x < High(s)
    ensures var t := Replace(s, x, f(x), bisected);
      && Bracketed(f, t) && t.a != t.b
      && Low(s) <= Low(t) && High(t) <= High(s) && Width(t) < Width(s)
      && (x == Middle(s) ==> Width(t) == Width(s) / 2.0)
      && Abs(t.fb) <= Abs(s.fa)
  {
  }

  lemma StepWithNarrows(f: real -> real, s: State, x: real)
    requires Bracketed(f, s)
    ensures var t := StepWith(f, s, x);
      && Bracketed(f, t) && t.a != t.b
      && Low(s) <= Low(t) && High(t) <= High(s) && Width(t) < Width(s)
      && (t.bisected ==> Width(t) == Width(s) / 2.0)
  {
    assert s.a != s.b;
    ProbeInside(s, x);
    ReplaceNarrows(f, s, Probe(s, x), Refused(s, x));
  }

  /**
    Every iteration keeps opposite signs, stays strictly inside the previous bracket,
    and halves it when it bisects.
  */
  lemma StepNarrows(f: real -> real, rule: Rule, s: State)
    requires Bracketed(f, s)
    ensures Bracketed(f, Step(f, rule, s)) && Step(f, rule, s).a != Step(f, rule, s).b
    ensures Low(s) <= Low(Step(f, rule, s)) && High(Step(f, rule, s)) <= High(s)
    ensures Width(Step(f, rule, s)) < Width(s)
    ensures Step(f, rule, s).bisected ==> Width(Step(f, rule, s)) == Width(s) / 2.0
  {
    StepWithNarrows(f, s, rule(s));
  }

  // ------------------------------------------------------------- whole runs

  function Iterate(f: real -> real, rule: Rule, s: State, n: nat): State
    requires Bracketed(f, s)
    ensures Bracketed(f, Iterate(f, rule, s, n))
  {
    if n == 0 then s
    else
      StepNarrows(f, rule, Iterate(f, rule, s, n - 1));
      Step(f, rule, Iterate(f, rule, s, n - 1))
  }

  /** How many of the first `n` iterations bisected. */
  function Bisections(f: real -> real, rule: Rule, s: State, n: nat): nat
    requires Bracketed(f, s)
  {
    if n == 0 then 0 else Bisections(f, rule, s, n - 1) + (if Iterate(f, rule, s, n).bisected then 1 else 0)
  }

  function Halved(width: real, k: nat): real
  {
    if k == 0 then width else Halved(width, k - 1) / 2.0
  }

  /** Brackets are nested over any stretch of the run, and k bisections divide the first by 2^k. */
  lemma {:induction false} BracketsNest(f: real -> real, rule: Rule, s: State, m: nat, n: nat)
    requires Bracketed(f, s) && m <= n
    ensures Low(Iterate(f, rule, s, m)) <= Low(Iterate(f, rule, s, n))
    ensures High(Iterate(f, rule, s, n)) <= High(Iterate(f, rule, s, m))
    ensures m < n ==> Width(Iterate(f, rule, s, n)) < Width(Iterate(f, rule, s, m))
  {
    hide Step, Bracketed;
    if m < n {
      BracketsNest(f, rule, s, m, n - 1);
      StepNarrows(f, rule, Iterate(f, rule, s, n - 1));
    }
  }

  lemma BestInside(f: real -> real, rule: Rule, s: State, n: nat)
    requires Bracketed(f, s)
    ensures Low(s) <= Iterate(f, rule, s, n).b <= High(s)
    ensures Iterate(f, rule, s, n).fb == f(Iterate(f, rule, s, n).b)
  {
    BracketsNest(f, rule, s, 0, n);
  }

  lemma {:induction false} BisectionsHalve(f: real -> real, rule: Rule, s: State, n: nat)
    requires Bracketed(f, s)
    ensures Width(Iterate(f, rule, s, n)) <= Halved(Width(s), Bisections(f, rule, s, n))
  {
    hide Step, Bracketed;
    if n > 0 {
      BisectionsHalve(f, rule, s, n - 1);
      StepNarrows(f, rule, Iterate(f, rule, s, n - 1));
    }
  }

  // -------------------------------------------------------------- the solver

  /** The loop's first state: the ends, best point last. */
  function Opening(f: real -> real, low: real, high: real): State
  {
    if Abs(f(low)) < Abs(f(high)) then State(high, low, high, low - high, f(high), f(low), f(high), true)
    else State(low, high, low, high - low, f(low), f(high), f(low), true)
  }

  predicate SameSide(f: real -> real, low: real, high: real)
  {
    (f(low) > 0.0) == (f(high) > 0.0)
  }

  /** So many iterations never reach an acceptable point. */
  ghost predicate NeverAccepts(f: real -> real, rule: Rule, s: State, limit: nat, tolerance: real)
    requires Bracketed(f, s)
  {
    forall n: nat :: n <= limit ==> !Accepts(f, rule, s, n, tolerance)
  }

  predicate Accepts(f: real -> real, rule: Rule, s: State, n: nat, tolerance: real)
    requires Bracketed(f, s)
  {
    Abs(Iterate(f, rule, s, n).fb) <= tolerance
  }

  /** The solver has nothing to offer: no bracket, or a bracket that never yields. */
  ghost predicate NoAnswer(f: real -> real, low: real, high: real, tolerance: real)
  {
    && Abs(f(low)) > tolerance && Abs(f(high)) > tolerance
    && (SameSide(f, low, high) || NeverAccepts(f, Interpolation(f), Opening(f, low, high), 200, tolerance))
  }

  /** One pass of the loop on its variables, from the interpolated point on. */
  method Advance(f: real -> real, s: State, x: real) returns (t: State)
    requires Bracketed(f, s)
    ensures t == StepWith(f, s, x) && t.a != t.b
  {
    var State(a, b, c, d, fa, fb, fc, bisected) := s;
    var p := x;
    var midpoint := (a + b) / 2.0;
    var near := (3.0 * a + b) / 4.0;
    var inside := Min(near, b) < p < Max(near, b);
    var slow := Abs(p - b) >= (if bisected then Abs(b - c) else Abs(c - d)) / 2.0;
    if !inside || slow {
      p := midpoint;
      bisected := true;
    } else {
      bisected := false;
    }
    var fp := f(p);
    d, c, fc := c, b, fb;
    if (fa > 0.0) != (fp > 0.0) {
      b, fb := p, fp;
    } else {
      a, fa := p, fp;
    }
    if Abs(fa) < Abs(fb) { a, b, fa, fb := b, a, fb, fa; }
    t := State(a, b, c, d, fa, fb, fc, bisected);
    assert t == StepWith(f, s, x);
    hide StepWith, Probe, Replace, Refused, Min, Max, Abs;
    StepWithNarrows(f, s, x);
  }

  /** The loop itself: it stops at the first acceptable state, or when its passes run out. */
  method Search(f: real -> real, rule: Rule, s0: State, limit: nat, tolerance: real) returns (s: State, ghost n: nat)
    requires Bracketed(f, s0)
    ensures n <= limit && s == Iterate(f, rule, s0, n)
    ensures forall k: nat :: k < n ==> !Accepts(f, rule, s0, k, tolerance)
    ensures n == limit || Abs(s.fb) <= tolerance
  {
    hide StepWith, Bracketed;
    s := s0;
    for i := 0 to limit
      invariant s == Iterate(f, rule, s0, i)
      invariant forall k: nat :: k < i ==> !Accepts(f, rule, s0, k, tolerance)
    {
      if Abs(s.fb) <= tolerance { return s, i; }
      s := Advance(f, s, rule(s));
    }
    n := limit;
  }

  /** The search from a bracket: the best point it ends on, if that one is acceptable. */
  method SolveBracketed(f: real -> real, s0: State, limit: nat, tolerance: real) returns (root: Option<real>)
    requires Bracketed(f, s0)
    ensures root.Some? ==> Low(s0) <= root.value <= High(s0) && Abs(f(root.value)) <= tolerance
    ensures root == None <==> NeverAccepts(f, Interpolation(f), s0, limit, tolerance)
  {
    hide StepWith, Interpolation, Bracketed;
    var s;
    ghost var n;
    s, n := Search(f, Interpolation(f), s0, limit, tolerance);
    BestInside(f, Interpolation(f), s0, n);
    assert Accepts(f, Interpolation(f), s0, n, tolerance) <==> Abs(s.fb) <= tolerance;
    root := if Abs(s.fb) <= tolerance then Some(s.b) else None;
  }

  /**
    A returned point lies in [low, high] and solves to the tolerance; none is returned
    exactly when there is none to offer. The loop's early exit on `a == b` is never
    taken (`Advance`), so it is not written: two ends of opposite sign are different points.
  */
  method Solve(f: real -> real, low: real, high: real, tolerance: real) returns (root: Option<real>)
    requires low < high && tolerance >= 0.0
    ensures root.Some? ==> low <= root.value <= high && Abs(f(root.value)) <= tolerance
    ensures root == None <==> NoAnswer(f, low, high, tolerance)
  {
    hide StepWith, Interpolation, NeverAccepts;
    var a, b := low, high;
    var fa, fb := f(a), f(b);
    if Abs(fa) <= tolerance { return Some(a); }
    if Abs(fb) <= tolerance { return Some(b); }
    if (fa > 0.0) == (fb > 0.0) { return None; }
    if Abs(fa) < Abs(fb) { a, b, fa, fb := b, a, fb, fa; }
    root := SolveBracketed(f, State(a, b, a, b - a, fa, fb, fa, true), ITERATIONS, tolerance);
  }

  // ------------------------------------------------------ implied volatility

  const MIN_VOLATILITY: real := 0.01
  const MAX_VOLATILITY: real := 3.0
  const PRICE_TOLERANCE: real := 0.0001
  const INTRINSIC_SLACK: real := 0.01

  function Intrinsic(kind: OptionKind, spot: real, strike: real): real
  {
    match kind case Call => Max(spot - strike, 0.0) case Put => Max(strike - spot, 0.0)
  }

  /** An observation the solver is asked about at all: positive, and at most a cent short of what exercise gives. */
  predicate Observable(kind: OptionKind, observed: real, spot: real, strike: real, years: real)
  {
    && years > 0.0 && spot > 0.0 && strike > 0.0 && observed > 0.0
    && observed + 0.01 > if kind == Call then spot - strike else strike - spot
  }

  /** `price` is the model's price at a volatility, for the contract in question. */
  method ImpliedVolatility(price: real -> real, kind: OptionKind, observed: real, spot: real, strike: real, years: real)
    returns (volatility: Option<real>)
    ensures volatility.Some? ==>
      && Observable(kind, observed, spot, strike, years)
      && 0.01 <= volatility.value <= 3.0
      && Abs(price(volatility.value) - observed) <= 0.0001
    ensures volatility == None <==>
      || !Observable(kind, observed, spot, strike, years)
      || NoAnswer(v => price(v) - observed, 0.01, 3.0, 0.0001)
  {
    if years <= 0.0 || spot <= 0.0 || strike <= 0.0 || observed <= 0.0 { return None; }
    if observed <= Intrinsic(kind, spot, strike) - INTRINSIC_SLACK { return None; }
    volatility := Solve(v => price(v) - observed, MIN_VOLATILITY, MAX_VOLATILITY, PRICE_TOLERANCE);
  }

  /** A monotone price crossing the observation inside the bounds always has a bracket. */
  lemma CrossingIsBracketed(price: real -> real, observed: real)
    requires price(MIN_VOLATILITY) < observed < price(MAX_VOLATILITY)
    ensures !SameSide(v => price(v) - observed, MIN_VOLATILITY, MAX_VOLATILITY)
  {
  }

  // ------------------------------------------------------------ what the rule finds

  /** Between two points of a line the rule finds the point where the line is zero. */
  lemma SecantFindsTheZero(f: real -> real, s: State, slope: real, root: real)
    requires Bracketed(f, s) && (s.fc == s.fa || s.fc == s.fb) && slope != 0.0
    requires s.fa == slope * (s.a - root) && s.fb == slope * (s.b - root)
    ensures Interpolated(f, s) == root
  {
    var d := s.b - s.a;
    assert s.fb - s.fa == slope * d;
    assert slope * d != 0.0;
    var x := s.fb * d / (s.fb - s.fa);
    assert s.fb * d == (s.b - root) * (slope * d);
    Cancels(s.b - root, slope * d);
  }

  lemma Cancels(x: real, y: real)
    requires y != 0.0
    ensures x * y / y == x
  {
  }

  function Mul(x: real, y: real): real { x * y }

  /** Over a divisor's two factors, times the product of the three differences, the third is left. */
  lemma OverTimes(t: real, p: real, q: real, rest: real)
    requires p != 0.0 && q != 0.0
    ensures Mul(Over(t, p, q), Mul(Mul(p, q), rest)) == Mul(t, rest)
  {
    ProductNonZero(p, q);
    var x := t / (p * q);
    assert x * (p * q) == t;
    Regroup(x, p * q, rest);
  }

  lemma Regroup(x: real, y: real, z: real)
    ensures x * (y * z) == (x * y) * z
  {
  }

  /** The place is a quadratic in the value. */
  predicate OnCurve(x: real, y: real, root: real, m: real, n: real)
  {
    x == root + m * y + n * (y * y)
  }

  function TermA(a: real, x: real, y: real, z: real): real { a * y * z * (y - z) }
  function TermB(b: real, x: real, y: real, z: real): real { b * x * z * (x - z) }
  function TermC(c: real, x: real, y: real, z: real): real { c * x * y * (x - y) }
  function Whole(root: real, x: real, y: real, z: real): real { root * ((x - y) * (x - z) * (y - z)) }

  lemma SplitTerms(x: real, y: real, z: real, u: real, v: real, w: real)
    ensures TermA(u + v + w, x, y, z) == TermA(u, x, y, z) + TermA(v, x, y, z) + TermA(w, x, y, z)
    ensures TermB(u + v + w, x, y, z) == TermB(u, x, y, z) + TermB(v, x, y, z) + TermB(w, x, y, z)
    ensures TermC(u + v + w, x, y, z) == TermC(u, x, y, z) + TermC(v, x, y, z) + TermC(w, x, y, z)
  {
  }

  lemma Constant(x: real, y: real, z: real, r: real)
    ensures TermA(r, x, y, z) - TermB(r, x, y, z) + TermC(r, x, y, z) == Whole(r, x, y, z)
  {
  }

  lemma Linear(x: real, y: real, z: real, m: real)
    ensures TermA(m * x, x, y, z) - TermB(m * y, x, y, z) + TermC(m * z, x, y, z) == 0.0
  {
  }

  lemma Square(x: real, y: real, z: real, n: real)
    ensures TermA(n * (x * x), x, y, z) - TermB(n * (y * y), x, y, z) + TermC(n * (z * z), x, y, z) == 0.0
  {
  }

  lemma Weighted(x: real, y: real, z: real, root: real, m: real, n: real, a: real, b: real, c: real)
    requires OnCurve(a, x, root, m, n) && OnCurve(b, y, root, m, n) && OnCurve(c, z, root, m, n)
    ensures TermA(a, x, y, z) - TermB(b, x, y, z) + TermC(c, x, y, z) == Whole(root, x, y, z)
  {
    hide TermA, TermB, TermC, Whole;
    SplitTerms(x, y, z, root, m * x, n * (x * x));
    SplitTerms(x, y, z, root, m * y, n * (y * y));
    SplitTerms(x, y, z, root, m * z, n * (z * z));
    Constant(x, y, z, root);
    Linear(x, y, z, m);
    Square(x, y, z, n);
  }

  lemma Products(p: real, q: real, r: real)
    requires p != 0.0 && q != 0.0 && r != 0.0
    ensures Mul(Mul(-p, r), -q) == Mul(Mul(p, q), r) && Mul(Mul(-q, -r), p) == Mul(Mul(p, q), r)
    ensures Mul(Mul(p, q), r) != 0.0
  {
    ProductNonZero(p, q);
    ProductNonZero(p * q, r);
  }

  lemma Combine(x: real, y: real, z: real, d: real, root: real)
    requires d != 0.0 && Mul(x, d) + Mul(y, d) + Mul(z, d) == Mul(root, d)
    ensures x + y + z == root
  {
    assert (x + y + z - root) * d == 0.0;
  }

  /** The differences of the values have names, and so have the numerators. */
  lemma Lagrange(t: real, u: real, v: real, p: real, q: real, r: real, root: real)
    requires p != 0.0 && q != 0.0 && r != 0.0
    requires Mul(t, r) + Mul(u, -q) + Mul(v, p) == Mul(root, Mul(Mul(p, q), r))
    ensures Over(t, p, q) + Over(u, -p, r) + Over(v, -q, -r) == root
  {
    OverTimes(t, p, q, r);
    OverTimes(u, -p, r, -q);
    OverTimes(v, -q, -r, p);
    Products(p, q, r);
    hide Over, Mul;
    Combine(Over(t, p, q), Over(u, -p, r), Over(v, -q, -r), Mul(Mul(p, q), r), root);
  }

  lemma FirstTerm(a: real, x: real, y: real, z: real)
    ensures Mul(Three(a, y, z), y - z) == TermA(a, x, y, z)
  {
  }

  lemma SecondTerm(b: real, x: real, y: real, z: real)
    ensures Mul(Three(b, x, z), -(x - z)) == -TermB(b, x, y, z)
  {
  }

  lemma ThirdTerm(c: real, x: real, y: real, z: real)
    ensures Mul(Three(c, x, y), x - y) == TermC(c, x, y, z)
  {
  }

  lemma AllTerms(root: real, x: real, y: real, z: real)
    ensures Mul(root, Mul(Mul(x - y, x - z), y - z)) == Whole(root, x, y, z)
  {
  }

  lemma WeightedMul(x: real, y: real, z: real, root: real, m: real, n: real, a: real, b: real, c: real)
    requires OnCurve(a, x, root, m, n) && OnCurve(b, y, root, m, n) && OnCurve(c, z, root, m, n)
    ensures Mul(Three(a, y, z), y - z) + Mul(Three(b, x, z), -(x - z)) + Mul(Three(c, x, y), x - y)
         == Mul(root, Mul(Mul(x - y, x - z), y - z))
  {
    hide OnCurve, Mul, Three, TermA, TermB, TermC, Whole;
    Weighted(x, y, z, root, m, n, a, b, c);
    FirstTerm(a, x, y, z);
    SecondTerm(b, x, y, z);
    ThirdTerm(c, x, y, z);
    AllTerms(root, x, y, z);
  }

  /** Where the place is a quadratic in the value, the rule finds from three points the place of value zero. */
  lemma QuadraticFindsTheZero(f: real -> real, s: State, root: real, m: real, n: real)
    requires Bracketed(f, s) && s.fa != s.fc && s.fb != s.fc
    requires OnCurve(s.a, s.fa, root, m, n) && OnCurve(s.b, s.fb, root, m, n) && OnCurve(s.c, s.fc, root, m, n)
    ensures Interpolated(f, s) == root
  {
    var p, q, r := s.fa - s.fb, s.fa - s.fc, s.fb - s.fc;
    WeightedMul(s.fa, s.fb, s.fc, root, m, n, s.a, s.b, s.c);
    hide Mul, OnCurve, Over, Three, Bracketed;
    Lagrange(Three(s.a, s.fb, s.fc), Three(s.b, s.fa, s.fc), Three(s.c, s.fa, s.fb), p, q, r, root);
    assert s.fb - s.fa == -p && s.fc - s.fa == -q && s.fc - s.fb == -r;
  }

  /**
    A step takes the middle exactly when the rule's point is not between the best one and a
    quarter of the way to it, or moves too slowly.
  */
  lemma StepReads(f: real -> real, rule: Rule, s: State)
    requires Bracketed(f, s)
    ensures var t, x, near := Step(f, rule, s), rule(s), (3.0 * s.a + s.b) / 4.0;
      var last := if s.bisected then s.b - s.c else s.c - s.d;
      && (t.bisected <==> !((near < x < s.b || s.b < x < near) && 2.0 * Abs(x - s.b) < Abs(last)))
      && t.c == s.b && t.d == s.c
      && (var probe := if t.bisected then (s.a + s.b) / 2.0 else x; probe == t.a || probe == t.b)
  {
  }
}
