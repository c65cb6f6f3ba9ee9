/**
  The moving-block bootstrap of `veto_outcomes.block_contrast`, its reuse in
  `veto_exits.contrasts`, and the single-mean form `study_decomposition.block_mean`.

  The specification draws positions: a replicate is the concatenation of its
  blocks cut to the length of the sequence, and every total is a plain sum over
  those positions. The methods keep prefix sums and subtract two entries per
  block, as the source does, and are proved equal to the specification.
*/
module Bootstrap {
  import opened Wrappers
  import opened Ordering

  datatype Label = Permitted | Vetoed | Gap

  /** What one position adds: its value, or one, when it carries the label and has a value. */
  datatype Measure = Sums | Counts

  type Labels = seq<Label>
  type Values = seq<Option<real>>

  const TAIL: real := 0.025

  // ---------------------------------------------------------------- positions

  /** `count` consecutive positions from `start`. */
  function Range(start: int, count: nat): (r: seq<int>)
  {
    seq(count, i => start + i)
  }

  /** Every block in full, one after the other. */
  function Concatenated(starts: seq<int>, block: nat): seq<int>
  {
    if starts == [] then []
    else Concatenated(starts[..|starts| - 1], block) + Range(starts[|starts| - 1], block)
  }

  /** The positions of one replicate: whole blocks, cut to the sequence's length. */
  function Positions(starts: seq<int>, block: int, length: nat): seq<int>
  {
    Cut(Concatenated(starts, if block < 0 then 0 else block), length)
  }

  function Cut(at: seq<int>, length: nat): seq<int>
  {
    if length <= |at| then at[..length] else at
  }

  /** ceil(length / block), and no call at all for a result below one. */
  function BlockCount(length: nat, block: int): nat
    requires block != 0
  {
    if block > 0 then (length + block - 1) / block else 0
  }

  datatype Fault = LengthMismatch | ZeroBlock | EmptyRange

  /** The error a replicate's `starts` raises: a division by zero, or no start to pick from. */
  function StartsFault(length: nat, block: int): Option<Fault>
  {
    if block == 0 then Some(ZeroBlock)
    else if BlockCount(length, block) > 0 && length < block then Some(EmptyRange)
    else None
  }

  /** A list of starts the generator can return for one replicate. */
  predicate IsStarts(length: nat, block: int, starts: seq<int>)
  {
    StartsFault(length, block) == None ==>
      && |starts| == BlockCount(length, block)
      && forall k :: 0 <= k < |starts| ==> 0 <= starts[k] <= length - block
  }

  lemma {:induction false} ConcatenatedInRange(starts: seq<int>, block: nat, length: nat)
    requires forall k :: 0 <= k < |starts| ==> 0 <= starts[k] <= length - block
    ensures |Concatenated(starts, block)| == |starts| * block
    ensures Inside(Concatenated(starts, block), length)
  {
    if starts != [] {
      ConcatenatedInRange(starts[..|starts| - 1], block, length);
      assert |Concatenated(starts, block)| == block + (|starts| - 1) * block;
    }
  }

  /** Every replicate draws exactly `length` positions, all inside the sequence. */
  lemma {:induction false} PositionsDrawn(starts: seq<int>, block: int, length: nat)
    requires StartsFault(length, block) == None && IsStarts(length, block, starts)
    requires 1 <= block
    ensures |Positions(starts, block, length)| == length
    ensures Inside(Positions(starts, block, length), length)
  {
    ConcatenatedInRange(starts, block, length);
    CeilingCovers(length, block);
  }

  lemma CeilingCovers(length: nat, block: nat)
    requires 1 <= block
    ensures BlockCount(length, block) * block >= length
    ensures BlockCount(length, block) * block < length + block
  {
    var q := (length + block - 1) / block;
    assert length + block - 1 == q * block + (length + block - 1) % block;
  }

  // ------------------------------------------------------------------ tallies

  predicate Inside(at: seq<int>, length: nat)
  {
    forall k :: 0 <= k < |at| ==> 0 <= at[k] < length
  }

  function Weight(name: Label, m: Measure, own: Label, v: Option<real>): real
  {
    if own == name && v.Some? then (if m == Counts then 1.0 else v.value) else 0.0
  }

  /** The direct sum over a list of positions. */
  function Tally(name: Label, m: Measure, group: Labels, values: Values, at: seq<int>): real
    requires |group| == |values|
    requires Inside(at, |group|)
  {
    if at == [] then 0.0
    else Tally(name, m, group, values, at[..|at| - 1])
         + Weight(name, m, group[at[|at| - 1]], values[at[|at| - 1]])
  }

  lemma {:induction false} TallySplit(name: Label, m: Measure, group: Labels, values: Values, a: seq<int>, b: seq<int>)
    requires |group| == |values|
    requires Inside(a, |group|) && Inside(b, |group|)
    ensures Tally(name, m, group, values, a + b)
         == Tally(name, m, group, values, a) + Tally(name, m, group, values, b)
  {
    if b == [] {
      assert a + b == a;
    } else {
      var front := b[..|b| - 1];
      assert (a + b)[..|a + b| - 1] == a + front;
      TallySplit(name, m, group, values, a, front);
    }
  }

  // ------------------------------------------------------------ specification

  /** One replicate's statistic, or nothing when it drew no usable member of an arm. */
  function Draw(group: Labels, values: Values, at: seq<int>): Option<real>
    requires |group| == |values|
    requires Inside(at, |group|)
  {
    var pn := Tally(Permitted, Counts, group, values, at);
    var vn := Tally(Vetoed, Counts, group, values, at);
    if pn == 0.0 || vn == 0.0 then None
    else Some(Tally(Permitted, Sums, group, values, at) / pn - Tally(Vetoed, Sums, group, values, at) / vn)
  }

  predicate IsReplicates(length: nat, block: int, replicates: seq<seq<int>>)
  {
    forall k :: 0 <= k < |replicates| ==> IsStarts(length, block, replicates[k])
  }

  /** In range for any block the generator accepts, a negative one (which draws nothing) included. */
  lemma PositionsInRange(length: nat, block: int, starts: seq<int>)
    requires StartsFault(length, block) == None && IsStarts(length, block, starts)
    ensures Inside(Positions(starts, block, length), length)
  {
    if block >= 1 { PositionsDrawn(starts, block, length); }
  }

  function Draws(group: Labels, values: Values, block: int, replicates: seq<seq<int>>): seq<real>
    requires |group| == |values|
    requires StartsFault(|group|, block) == None && IsReplicates(|group|, block, replicates)
  {
    if replicates == [] then []
    else
      var last := |replicates| - 1;
      PositionsInRange(|group|, block, replicates[last]);
      var d := Draw(group, values, Positions(replicates[last], block, |group|));
      Draws(group, values, block, replicates[..last]) + (if d.Some? then [d.value] else [])
  }

  /** The values an arm's mean is taken over, in sequence order. */
  function Usable(name: Label, group: Labels, values: Values): seq<real>
    requires |group| == |values|
  {
    if group == [] then []
    else
      var last := |group| - 1;
      Usable(name, group[..last], values[..last])
        + (if group[last] == name && values[last].Some? then [values[last].value] else [])
  }

  function Excluded(name: Label, group: Labels, values: Values): nat
    requires |group| == |values|
  {
    if group == [] then 0
    else
      var last := |group| - 1;
      Excluded(name, group[..last], values[..last])
        + (if group[last] == name && values[last].None? then 1 else 0)
  }

  function Sum(xs: seq<real>): real
  {
    if xs == [] then 0.0 else Sum(xs[..|xs| - 1]) + xs[|xs| - 1]
  }

  function Mean(xs: seq<real>): Option<real>
  {
    if xs == [] then None else Some(Sum(xs) / |xs| as real)
  }

  /** Linear interpolation between the closest ranks. */
  function Interpolate(ordered: seq<real>, pos: real): real
    requires ordered != [] && 0.0 <= pos <= (|ordered| - 1) as real
  {
    var low := pos.Floor;
    var high := if low + 1 < |ordered| - 1 then low + 1 else |ordered| - 1;
    Blend(ordered[low], ordered[high], pos - low as real)
  }

  function Blend(lo: real, hi: real, f: real): real
  {
    lo + (hi - lo) * f
  }

  function Rank(n: nat, q: real): (pos: real)
    requires n >= 1 && 0.0 <= q <= 1.0
    ensures 0.0 <= pos <= (n - 1) as real
  {
    q * (n - 1) as real
  }

  function Percentile(ordered: seq<real>, q: real): real
    requires ordered != [] && 0.0 <= q <= 1.0
  {
    Interpolate(ordered, Rank(|ordered|, q))
  }

  datatype Contrast = Contrast(
    blockLength: int,
    permittedN: nat, vetoedN: nat, permittedExcluded: nat, vetoedExcluded: nat,
    permittedMean: Option<real>, vetoedMean: Option<real>, difference: Option<real>,
    low: Option<real>, high: Option<real>, emptyReplicates: nat)

  function Difference(p: Option<real>, v: Option<real>): Option<real>
  {
    if p.None? || v.None? then None else Some(p.value - v.value)
  }

  function IntervalEnd(draws: seq<real>, q: real): Option<real>
    requires 0.0 <= q <= 1.0
  {
    if draws == [] then None else Some(PercentileOf(draws, q))
  }

  function PercentileOf(draws: seq<real>, q: real): real
    requires draws != [] && 0.0 <= q <= 1.0
  {
    SortPermutes(draws);
    Percentile(Sort(draws), q)
  }

  /** What the contrast is, said without prefix sums. */
  function ContrastOf(group: Labels, values: Values, block: int, replicates: seq<seq<int>>): Contrast
    requires |group| == |values|
    requires replicates != [] ==> StartsFault(|group|, block) == None && IsReplicates(|group|, block, replicates)
  {
    var p := Usable(Permitted, group, values);
    var v := Usable(Vetoed, group, values);
    var draws := if replicates == [] then [] else Draws(group, values, block, replicates);
    DrawsBounded(group, values, block, replicates);
    Assemble(block, p, v, Excluded(Permitted, group, values), Excluded(Vetoed, group, values),
             draws, |replicates| - |draws|)
  }

  function Assemble(block: int, p: seq<real>, v: seq<real>, pOut: nat, vOut: nat, draws: seq<real>,
                    empty: nat): Contrast
  {
    Contrast(block, |p|, |v|, pOut, vOut, Mean(p), Mean(v), Difference(Mean(p), Mean(v)),
             IntervalEnd(draws, TAIL), IntervalEnd(draws, 1.0 - TAIL), empty)
  }

  lemma DrawsBounded(group: Labels, values: Values, block: int, replicates: seq<seq<int>>)
    requires |group| == |values|
    requires replicates != [] ==> StartsFault(|group|, block) == None && IsReplicates(|group|, block, replicates)
    ensures replicates != [] ==> |Draws(group, values, block, replicates)| <= |replicates|
  {
    if |replicates| > 1 { DrawsBounded(group, values, block, replicates[..|replicates| - 1]); }
  }

  // ------------------------------------------------- the arms are interchangeable

  function Swap(l: Label): Label
  {
    match l case Permitted => Vetoed case Vetoed => Permitted case Gap => Gap
  }

  function Swapped(group: Labels): (r: Labels)
  {
    seq(|group|, i requires 0 <= i < |group| => Swap(group[i]))
  }

  function Negate(x: Option<real>): Option<real>
  {
    if x.None? then None else Some(-x.value)
  }

  /** The same comparison told from the other arm. */
  function Mirrored(c: Contrast): Contrast
  {
    Contrast(c.blockLength, c.vetoedN, c.permittedN, c.vetoedExcluded, c.permittedExcluded,
             c.vetoedMean, c.permittedMean, Negate(c.difference), Negate(c.high), Negate(c.low),
             c.emptyReplicates)
  }

  lemma {:induction false} SwapTally(name: Label, m: Measure, group: Labels, values: Values, at: seq<int>)
    requires |group| == |values|
    requires Inside(at, |group|)
    requires name != Gap
    ensures Tally(Swap(name), m, Swapped(group), values, at) == Tally(name, m, group, values, at)
  {
    if at != [] { SwapTally(name, m, group, values, at[..|at| - 1]); }
  }

  lemma {:induction false} SwapUsable(name: Label, group: Labels, values: Values)
    requires |group| == |values| && name != Gap
    ensures Usable(Swap(name), Swapped(group), values) == Usable(name, group, values)
    ensures Excluded(Swap(name), Swapped(group), values) == Excluded(name, group, values)
  {
    if group != [] {
      var last := |group| - 1;
      SwapUsable(name, group[..last], values[..last]);
      assert Swapped(group)[..last] == Swapped(group[..last]);
    }
  }

  lemma {:induction false} SwapDraws(group: Labels, values: Values, block: int, replicates: seq<seq<int>>)
    requires |group| == |values|
    requires StartsFault(|group|, block) == None && IsReplicates(|group|, block, replicates)
    ensures Draws(Swapped(group), values, block, replicates) == Negated(Draws(group, values, block, replicates))
  {
    if replicates != [] {
      var last := |replicates| - 1;
      SwapDraws(group, values, block, replicates[..last]);
      PositionsInRange(|group|, block, replicates[last]);
      var at := Positions(replicates[last], block, |group|);
      SwapDraw(group, values, at);
      hide Draw, Positions, IsStarts;
    }
  }

  /** One replicate's difference changes its sign, and is missing where it was missing. */
  lemma SwapDraw(group: Labels, values: Values, at: seq<int>)
    requires |group| == |values| && Inside(at, |group|)
    ensures var d := Draw(group, values, at);
      Draw(Swapped(group), values, at) == if d.Some? then Some(-d.value) else None
  {
    SwapTally(Permitted, Counts, group, values, at);
    SwapTally(Permitted, Sums, group, values, at);
    SwapTally(Vetoed, Counts, group, values, at);
    SwapTally(Vetoed, Sums, group, values, at);
    hide Tally, Inside;
  }

  /** Reading a list backwards with every sign changed reads the same rank from the other end. */
  lemma InterpolateMirror(xs: seq<real>, pos: real)
    requires xs != [] && 0.0 <= pos <= (|xs| - 1) as real
    ensures Interpolate(Mirror(xs), (|xs| - 1) as real - pos) == -Interpolate(xs, pos)
  {
    var n := |xs|;
    var mirrored := (n - 1) as real - pos;
    var low := pos.Floor;
    if pos == low as real {
      assert mirrored.Floor == n - 1 - low;
    } else {
      assert mirrored.Floor == n - 2 - low;
      var lo, hi, f := xs[low], xs[low + 1], pos - low as real;
      assert Mirror(xs)[n - 2 - low] == -hi && Mirror(xs)[n - 1 - low] == -lo;
      BlendMirror(lo, hi, f);
    }
  }

  lemma BlendMirror(lo: real, hi: real, f: real)
    ensures Blend(-hi, -lo, 1.0 - f) == -Blend(lo, hi, f)
    ensures Blend(-hi, -hi, 0.0) == -hi && Blend(lo, hi, 0.0) == lo
  {
  }

  lemma RankComplement(n: nat, q: real)
    requires n >= 1 && 0.0 <= q <= 1.0
    ensures Rank(n, 1.0 - q) == (n - 1) as real - Rank(n, q)
  {
  }

  lemma PercentileMirror(xs: seq<real>, q: real)
    requires xs != [] && 0.0 <= q <= 1.0
    ensures Percentile(Mirror(xs), 1.0 - q) == -Percentile(xs, q)
  {
    RankComplement(|xs|, q);
    InterpolateMirror(xs, Rank(|xs|, q));
  }

  lemma PercentileOfMirror(draws: seq<real>, q: real)
    requires draws != [] && 0.0 <= q <= 1.0
    ensures PercentileOf(Negated(draws), 1.0 - q) == -PercentileOf(draws, q)
  {
    SortMirror(draws);
    SortPermutes(draws);
    var ordered := Sort(draws);
    calc {
      PercentileOf(Negated(draws), 1.0 - q);
      Percentile(Sort(Negated(draws)), 1.0 - q);
      Percentile(Mirror(ordered), 1.0 - q);
      { PercentileMirror(ordered, q); }
      -Percentile(ordered, q);
    }
  }

  lemma IntervalMirror(draws: seq<real>, q: real)
    requires 0.0 <= q <= 1.0
    ensures IntervalEnd(Negated(draws), 1.0 - q) == Negate(IntervalEnd(draws, q))
  {
    if draws != [] { PercentileOfMirror(draws, q); }
  }

  lemma AssembleMirror(block: int, p: seq<real>, v: seq<real>, pOut: nat, vOut: nat, draws: seq<real>, empty: nat)
    ensures Assemble(block, v, p, vOut, pOut, Negated(draws), empty)
         == Mirrored(Assemble(block, p, v, pOut, vOut, draws, empty))
  {
    IntervalMirror(draws, TAIL);
    IntervalMirror(draws, 1.0 - TAIL);
    assert 1.0 - (1.0 - TAIL) == TAIL;
  }

  /**
    Exchanging the arm labels negates the difference and turns [low, high] into
    exactly [-high, -low], for every sequence, block length and list of starts.
  */
  lemma SwapContrast(group: Labels, values: Values, block: int, replicates: seq<seq<int>>)
    requires |group| == |values|
    requires replicates != [] ==> StartsFault(|group|, block) == None && IsReplicates(|group|, block, replicates)
    ensures ContrastOf(Swapped(group), values, block, replicates) ==
              Mirrored(ContrastOf(group, values, block, replicates))
  {
    SwapUsable(Permitted, group, values);
    SwapUsable(Vetoed, group, values);
    var draws := if replicates == [] then [] else Draws(group, values, block, replicates);
    DrawsBounded(group, values, block, replicates);
    if replicates != [] { SwapDraws(group, values, block, replicates); }
    AssembleMirror(block, Usable(Permitted, group, values), Usable(Vetoed, group, values),
                   Excluded(Permitted, group, values), Excluded(Vetoed, group, values),
                   draws, |replicates| - |draws|);
  }

  // --------------------------------------------------------- shape of the interval

  /** A later rank of an ascending list reads no lower, and both stay between its ends. */
  lemma InterpolateAscends(xs: seq<real>, p: real, q: real)
    requires xs != [] && Ascending(xs)
    requires 0.0 <= p <= q <= (|xs| - 1) as real
    ensures xs[0] <= Interpolate(xs, p) <= Interpolate(xs, q) <= xs[|xs| - 1]
  {
    InterpolateBracketed(xs, p);
    InterpolateBracketed(xs, q);
    var i, j := p.Floor, q.Floor;
    if i < j {
      assert xs[i + 1] <= xs[j];
    } else if i + 1 < |xs| {
      BlendAscends(xs[i], xs[i + 1], p - i as real, q - i as real);
    }
  }

  lemma InterpolateBracketed(xs: seq<real>, p: real)
    requires xs != [] && Ascending(xs)
    requires 0.0 <= p <= (|xs| - 1) as real
    ensures xs[p.Floor] <= Interpolate(xs, p)
    ensures p.Floor + 1 < |xs| ==> Interpolate(xs, p) <= xs[p.Floor + 1]
    ensures p.Floor + 1 == |xs| ==> Interpolate(xs, p) == xs[p.Floor]
    ensures xs[0] <= xs[p.Floor] <= xs[|xs| - 1]
  {
    if p.Floor + 1 < |xs| {
      BlendAscends(xs[p.Floor], xs[p.Floor + 1], p - p.Floor as real, 1.0);
    }
  }

  lemma BlendAscends(lo: real, hi: real, f: real, g: real)
    requires lo <= hi && 0.0 <= f <= g <= 1.0
    ensures lo <= Blend(lo, hi, f) <= Blend(lo, hi, g) <= hi
  {
    Scaled(hi - lo, 0.0, f);
    Scaled(hi - lo, f, g);
    Scaled(hi - lo, g, 1.0);
  }

  lemma Scaled(d: real, f: real, g: real)
    requires 0.0 <= d && f <= g
    ensures d * f <= d * g
  {
  }

  lemma RankAscends(n: nat, p: real, q: real)
    requires n >= 1 && 0.0 <= p <= q <= 1.0
    ensures Rank(n, p) <= Rank(n, q)
  {
    Scaled((n - 1) as real, p, q);
  }

  /** The interval is in order and never reaches past the replicates it summarises. */
  lemma IntervalOrdered(draws: seq<real>, lowest: real, highest: real)
    requires draws != []
    requires forall k :: 0 <= k < |draws| ==> lowest <= draws[k] <= highest
    ensures lowest <= IntervalEnd(draws, TAIL).value <= IntervalEnd(draws, 1.0 - TAIL).value <= highest
  {
    SortPermutes(draws);
    var s := Sort(draws);
    RankAscends(|s|, TAIL, 1.0 - TAIL);
    InterpolateAscends(s, Rank(|s|, TAIL), Rank(|s|, 1.0 - TAIL));
    assert s[0] in multiset(s) && s[|s| - 1] in multiset(s);
    assert s[0] in draws && s[|s| - 1] in draws;
  }

  // ------------------------------------------- one block the length of the sequence

  lemma {:induction false} TallyWhole(name: Label, group: Labels, values: Values)
    requires |group| == |values|
    ensures Tally(name, Sums, group, values, Range(0, |group|)) == Sum(Usable(name, group, values))
    ensures Tally(name, Counts, group, values, Range(0, |group|)) == |Usable(name, group, values)| as real
  {
    if group != [] {
      var last := |group| - 1;
      TallyWhole(name, group[..last], values[..last]);
      assert Range(0, |group|)[..last] == Range(0, last);
      TallyPrefix(name, Sums, group, values, Range(0, last));
      TallyPrefix(name, Counts, group, values, Range(0, last));
      var front := Usable(name, group[..last], values[..last]);
      var whole := Usable(name, group, values);
      if group[last] == name && values[last].Some? {
        assert whole == front + [values[last].value] && whole[..|whole| - 1] == front;
      } else {
        assert whole == front;
      }
    }
  }

  lemma {:induction false} TallyPrefix(name: Label, m: Measure, group: Labels, values: Values, at: seq<int>)
    requires |group| == |values| && group != []
    requires Inside(at, |group| - 1)
    ensures Tally(name, m, group, values, at)
         == Tally(name, m, group[..|group| - 1], values[..|group| - 1], at)
  {
    if at != [] { TallyPrefix(name, m, group, values, at[..|at| - 1]); }
  }

  lemma WholeBlockPositions(length: nat, starts: seq<int>)
    requires length >= 1 && IsStarts(length, length, starts)
    ensures Positions(starts, length, length) == Range(0, length)
  {
    assert BlockCount(length, length) == 1;
    assert Concatenated(starts[..0], length) == [];
    assert Concatenated(starts, length) == [] + Range(0, length);
  }

  /** With one block spanning the sequence, a replicate is the point estimate itself. */
  lemma WholeBlockDraw(group: Labels, values: Values, starts: seq<int>)
    requires |group| == |values| && group != []
    requires IsStarts(|group|, |group|, starts)
    ensures Inside(Positions(starts, |group|, |group|), |group|)
    ensures Draw(group, values, Positions(starts, |group|, |group|))
         == Difference(Mean(Usable(Permitted, group, values)), Mean(Usable(Vetoed, group, values)))
  {
    hide Tally, Usable, Positions, IsStarts, Sum;
    WholeBlockPositions(|group|, starts);
    TallyWhole(Permitted, group, values);
    TallyWhole(Vetoed, group, values);
  }

  // --------------------------------------------------------- the prefix-sum form

  const ROWS: seq<(Label, Measure)> := [(Permitted, Sums), (Permitted, Counts), (Vetoed, Sums), (Vetoed, Counts)]

  ghost predicate IsPrefix(name: Label, m: Measure, group: Labels, values: Values, sums: seq<real>)
    requires |group| == |values|
  {
    && |sums| == |group| + 1
    && forall i :: 0 <= i <= |group| ==> sums[i] == Tally(name, m, group, values, Range(0, i))
  }

  method Prefix(name: Label, m: Measure, group: Labels, values: Values) returns (out: seq<real>)
    requires |group| == |values|
    ensures IsPrefix(name, m, group, values, out)
  {
    out := [0.0];
    for i := 0 to |group|
      invariant |out| == i + 1
      invariant forall k :: 0 <= k <= i ==> out[k] == Tally(name, m, group, values, Range(0, k))
    {
      assert Range(0, i + 1)[..i] == Range(0, i);
      out := out + [out[i] + Weight(name, m, group[i], values[i])];
    }
  }

  /** A block's contribution is a difference of two entries. */
  lemma BlockDifference(name: Label, m: Measure, group: Labels, values: Values, sums: seq<real>, start: int, take: nat)
    requires |group| == |values| && IsPrefix(name, m, group, values, sums)
    requires 0 <= start <= start + take <= |group|
    ensures sums[start + take] - sums[start] == Tally(name, m, group, values, Range(start, take))
  {
    assert Range(0, start + take) == Range(0, start) + Range(start, take);
    TallySplit(name, m, group, values, Range(0, start), Range(start, take));
  }

  lemma CutStep(at: seq<int>, start: int, block: nat, length: nat)
    ensures Cut(at + Range(start, block), length)
         == Cut(at, length) +
           Range(start, if block < length - |Cut(at, length)| then block else length - |Cut(at, length)|)
  {
  }

  /** One replicate's running totals over the prefix lists, block by block. */
  method Totals(group: Labels, values: Values, rows: seq<(Label, Measure)>, sums: seq<seq<real>>,
                starts: seq<int>, block: nat) returns (totals: seq<real>)
    requires |group| == |values| && |sums| == |rows|
    requires forall k :: 0 <= k < |rows| ==> IsPrefix(rows[k].0, rows[k].1, group, values, sums[k])
    requires forall k :: 0 <= k < |starts| ==> 0 <= starts[k] <= |group| - block
    ensures Inside(Positions(starts, block, |group|), |group|)
    ensures |totals| == |rows|
    ensures forall k :: 0 <= k < |rows| ==>
      totals[k] == Tally(rows[k].0, rows[k].1, group, values, Positions(starts, block, |group|))
  {
    var length := |group|;
    totals := seq(|rows|, _ => 0.0);
    var remaining := length;
    for j := 0 to |starts|
      invariant Inside(Positions(starts[..j], block, length), length)
      invariant remaining == length - |Positions(starts[..j], block, length)| && 0 <= remaining
      invariant |totals| == |rows|
      invariant forall k :: 0 <= k < |rows| ==>
        totals[k] == Tally(rows[k].0, rows[k].1, group, values, Positions(starts[..j], block, length))
    {
      var start := starts[j];
      var take := if block < remaining then block else remaining;
      ghost var before := Positions(starts[..j], block, length);
      ghost var was := totals;
      assert starts[..j + 1][..j] == starts[..j];
      CutStep(Concatenated(starts[..j], block), start, block, length);
      assert Positions(starts[..j + 1], block, length) == before + Range(start, take);
      for k := 0 to |rows|
        invariant |totals| == |rows|
        invariant forall i :: k <= i < |rows| ==> totals[i] == was[i]
        invariant forall i :: 0 <= i < k ==>
          totals[i] == Tally(rows[i].0, rows[i].1, group, values, before + Range(start, take))
      {
        totals := totals[k := totals[k] + (sums[k][start + take] - sums[k][start])];
        BlockDifference(rows[k].0, rows[k].1, group, values, sums[k], start, take);
        TallySplit(rows[k].0, rows[k].1, group, values, before, Range(start, take));
      }
      remaining := remaining - take;
    }
    assert starts[..|starts|] == starts;
  }

  lemma NoStarts(length: nat, block: int, starts: seq<int>)
    requires StartsFault(length, block) == None && IsStarts(length, block, starts) && block < 0
    ensures starts == [] && Positions(starts, block, length) == Positions(starts, 0, length) == []
  {
  }

  /** Every replicate in turn; one that drew no usable member of an arm is only counted. */
  method Resample(group: Labels, values: Values, sums: seq<seq<real>>, block: int, replicates: seq<seq<int>>)
    returns (draws: seq<real>, empty: nat)
    requires |group| == |values| && |sums| == |ROWS|
    requires forall i :: 0 <= i < |ROWS| ==> IsPrefix(ROWS[i].0, ROWS[i].1, group, values, sums[i])
    requires StartsFault(|group|, block) == None && IsReplicates(|group|, block, replicates)
    ensures draws == Draws(group, values, block, replicates)
    ensures empty == |replicates| - |draws|
  {
    draws, empty := [], 0;
    for n := 0 to |replicates|
      invariant draws == Draws(group, values, block, replicates[..n])
      invariant empty == n - |draws|
    {
      assert replicates[..n + 1][..n] == replicates[..n];
      if block < 0 { NoStarts(|group|, block, replicates[n]); }
      var totals := Totals(group, values, ROWS, sums, replicates[n], if block < 0 then 0 else block);
      if totals[1] == 0.0 || totals[3] == 0.0 {
        empty := empty + 1;
      } else {
        draws := draws + [totals[0] / totals[1] - totals[2] / totals[3]];
      }
    }
    assert replicates[..|replicates|] == replicates;
  }

  method PrefixRows(group: Labels, values: Values) returns (sums: seq<seq<real>>)
    requires |group| == |values|
    ensures |sums| == |ROWS|
    ensures forall i :: 0 <= i < |ROWS| ==> IsPrefix(ROWS[i].0, ROWS[i].1, group, values, sums[i])
  {
    sums := [];
    for k := 0 to |ROWS|
      invariant |sums| == k
      invariant forall i :: 0 <= i < k ==> IsPrefix(ROWS[i].0, ROWS[i].1, group, values, sums[i])
    {
      var row := Prefix(ROWS[k].0, ROWS[k].1, group, values);
      sums := sums + [row];
    }
  }

  /** The prefix-sum form computes the contrast, and raises exactly where the source does. */
  method BlockContrast(group: Labels, values: Values, block: int, replicates: seq<seq<int>>)
    returns (r: Result<Contrast, Fault>)
    requires IsReplicates(|group|, block, replicates)
    ensures |group| != |values| ==> r == Failure(LengthMismatch)
    ensures |group| == |values| && replicates != [] && StartsFault(|group|, block).Some?
      ==> r == Failure(StartsFault(|group|, block).value)
    ensures |group| == |values| && (replicates == [] || StartsFault(|group|, block) == None)
      ==> r == Success(ContrastOf(group, values, block, replicates))
  {
    if |group| != |values| { return Failure(LengthMismatch); }
    var sums := PrefixRows(group, values);
    var draws, empty := [], 0;
    if replicates != [] {
      var fault := StartsFault(|group|, block);
      if fault.Some? { return Failure(fault.value); }
      draws, empty := Resample(group, values, sums, block, replicates);
    }
    r := Success(Assemble(block, Usable(Permitted, group, values), Usable(Vetoed, group, values),
                          Excluded(Permitted, group, values), Excluded(Vetoed, group, values), draws, empty));
  }

  // ------------------------------------------------------------ what a contrast reads as

  /** The starts raise exactly on a block of length zero, and on one longer than a sequence that is not empty. */
  lemma FaultReads(length: nat, block: int)
    ensures StartsFault(length, block) == Some(ZeroBlock) <==> block == 0
    ensures StartsFault(length, block) == Some(EmptyRange) <==> 0 < length < block
    ensures StartsFault(length, block) == None <==> block != 0 && !(0 < length < block)
  {
    if block > 0 {
      CeilingCovers(length, block);
      if BlockCount(length, block) == 0 { assert length <= 0; }
      if length == 0 { assert BlockCount(length, block) == 0 by { assert (block - 1) / block == 0; } }
    }
  }

  /** Position `k` of a replicate is so far into its own block. */
  lemma {:induction false} PositionAt(starts: seq<int>, block: nat, k: nat)
    requires block >= 1 && k < |Concatenated(starts, block)|
    ensures k / block < |starts| && Concatenated(starts, block)[k] == starts[k / block] + k % block
  {
    var front := starts[..|starts| - 1];
    Lengths(front, block);
    if k < |front| * block {
      PositionAt(front, block, k);
    } else {
      Within(k, block, |front|);
    }
  }

  lemma {:induction false} Lengths(starts: seq<int>, block: nat)
    ensures |Concatenated(starts, block)| == |starts| * block
  {
    if starts != [] {
      Lengths(starts[..|starts| - 1], block);
      assert |starts| * block == (|starts| - 1) * block + block;
    }
  }

  lemma Within(k: nat, block: nat, n: nat)
    requires block >= 1 && n * block <= k < n * block + block
    ensures k / block == n && k % block == k - n * block
  {
    var q := k / block;
    assert k == q * block + k % block;
    assert q < n ==> (q + 1) * block <= n * block;
    assert q > n ==> (n + 1) * block <= q * block;
  }

  /** A replicate reads the same values as its positions: each block's in turn, from its start on. */
  lemma PositionsRead(starts: seq<int>, block: int, length: nat, k: nat)
    requires StartsFault(length, block) == None && IsStarts(length, block, starts) && block >= 1 && k < length
    ensures k < |Positions(starts, block, length)| && k / block < |starts|
    ensures Positions(starts, block, length)[k] == starts[k / block] + k % block
  {
    PositionsDrawn(starts, block, length);
    ConcatenatedInRange(starts, block, length);
    CeilingCovers(length, block);
    PositionAt(starts, block, k);
  }

  /** The values of an arm at a list of positions. */
  function Picked(name: Label, group: Labels, values: Values, at: seq<int>): seq<real>
    requires |group| == |values| && Inside(at, |group|)
  {
    if at == [] then []
    else
      var last := at[|at| - 1];
      Picked(name, group, values, at[..|at| - 1])
        + (if group[last] == name && values[last].Some? then [values[last].value] else [])
  }

  lemma {:induction false} TallyPicks(name: Label, group: Labels, values: Values, at: seq<int>)
    requires |group| == |values| && Inside(at, |group|)
    ensures Tally(name, Counts, group, values, at) == |Picked(name, group, values, at)| as real
    ensures Tally(name, Sums, group, values, at) == Sum(Picked(name, group, values, at))
  {
    if at != [] {
      var front, last := Picked(name, group, values, at[..|at| - 1]), at[|at| - 1];
      TallyPicks(name, group, values, at[..|at| - 1]);
      var all := Picked(name, group, values, at);
      if group[last] == name && values[last].Some? {
        assert all == front + [values[last].value] && all[..|front|] == front;
      } else {
        assert all == front;
      }
    }
  }

  /** A replicate's statistic: the mean of what it drew of the first arm, less that of the second. */
  lemma DrawReads(group: Labels, values: Values, at: seq<int>)
    requires |group| == |values| && Inside(at, |group|)
    ensures Draw(group, values, at)
         == Difference(Mean(Picked(Permitted, group, values, at)), Mean(Picked(Vetoed, group, values, at)))
  {
    TallyPicks(Permitted, group, values, at);
    TallyPicks(Vetoed, group, values, at);
    hide Tally, Picked, Sum;
  }

  function Statistic(group: Labels, values: Values, block: int, starts: seq<int>): Option<real>
    requires |group| == |values| && StartsFault(|group|, block) == None && IsStarts(|group|, block, starts)
  {
    PositionsInRange(|group|, block, starts);
    Draw(group, values, Positions(starts, block, |group|))
  }

  /** How many replicates have a statistic that satisfies the test. */
  function Replicates(group: Labels, values: Values, block: int, replicates: seq<seq<int>>, keep: real -> bool): nat
    requires |group| == |values| && StartsFault(|group|, block) == None && IsReplicates(|group|, block, replicates)
  {
    if replicates == [] then 0
    else
      var x := Statistic(group, values, block, replicates[|replicates| - 1]);
      Replicates(group, values, block, replicates[..|replicates| - 1], keep)
        + (if x.Some? && keep(x.value) then 1 else 0)
  }

  lemma {:induction false} ReplicatesCount(group: Labels, values: Values, block: int, replicates: seq<seq<int>>,
                                           keep: real -> bool)
    requires |group| == |values| && StartsFault(|group|, block) == None && IsReplicates(|group|, block, replicates)
    ensures Replicates(group, values, block, replicates, keep) == CountIf(Draws(group, values, block, replicates), keep)
  {
    if replicates != [] {
      var last := |replicates| - 1;
      ReplicatesCount(group, values, block, replicates[..last], keep);
      var x := Statistic(group, values, block, replicates[last]);
      var front := Draws(group, values, block, replicates[..last]);
      assert Draws(group, values, block, replicates) == front + if x.Some? then [x.value] else [];
      hide Statistic, IsStarts, Draws;
      if x.Some? {
        CountPlus(front, [x.value], keep);
        assert CountIf([x.value], keep) == if keep(x.value) then 1 else 0;
      } else {
        assert front + [] == front;
      }
    }
  }

  /** How many of the `n` ordered statistics the lower end leaves behind: one, and a fortieth of the others. */
  function Tail(n: nat): nat
    requires n >= 1
  {
    (0.025 * (n - 1) as real).Floor as nat + 1
  }

  /** Few statistics lie beyond an end, and that many lie on it or beyond. */
  lemma LowEndCounts(draws: seq<real>)
    requires draws != []
    ensures var low := IntervalEnd(draws, TAIL).value;
      CountIf(draws, Below(low)) <= Tail(|draws|) <= CountIf(draws, UpTo(low))
  {
    SortPermutes(draws);
    var s := Sort(draws);
    var pos := Rank(|s|, TAIL);
    var low := IntervalEnd(draws, TAIL).value;
    hide Sort, CountIf, Interpolate;
    InterpolateBracketed(s, pos);
    CountAt(s, pos.Floor, low);
    CountSort(draws, Below(low));
    CountSort(draws, UpTo(low));
    assert pos == 0.025 * (|draws| - 1) as real;
  }

  lemma HighEndCounts(draws: seq<real>)
    requires draws != []
    ensures var high := IntervalEnd(draws, 1.0 - TAIL).value;
      CountIf(draws, Above(high)) <= Tail(|draws|) <= CountIf(draws, From(high))
  {
    EndThere(draws, 1.0 - TAIL);
    EndThere(Negated(draws), TAIL);
    hide IntervalEnd, CountIf, Tail, Negated, Below, UpTo, Above, From;
    NegatedLength(draws);
    LowEndCounts(Negated(draws));
    MirroredEnds(draws);
    var high := IntervalEnd(draws, 1.0 - TAIL).value;
    assert IntervalEnd(Negated(draws), TAIL).value == -high;
    MirroredCounts(draws, high);
  }

  lemma NegatedLength(xs: seq<real>)
    ensures |Negated(xs)| == |xs|
  {
  }

  lemma MirroredEnds(draws: seq<real>)
    ensures IntervalEnd(Negated(draws), TAIL) == Negate(IntervalEnd(draws, 1.0 - TAIL))
  {
    hide IntervalEnd;
    IntervalMirror(draws, 1.0 - TAIL);
    assert 1.0 - (1.0 - TAIL) == TAIL;
  }

  lemma MirroredCounts(draws: seq<real>, high: real)
    ensures CountIf(Negated(draws), Below(-high)) == CountIf(draws, Above(high))
    ensures CountIf(Negated(draws), UpTo(-high)) == CountIf(draws, From(high))
  {
    CountNegated(draws, Above(high), Below(-high));
    CountNegated(draws, From(high), UpTo(-high));
    hide CountIf;
  }

  lemma EndThere(draws: seq<real>, q: real)
    requires 0.0 <= q <= 1.0
    ensures IntervalEnd(draws, q).Some? <==> draws != []
  {
  }

  /**
    The interval, by counting over the replicates that have a statistic: it is in order, and
    beyond each end lies at most one statistic more than a fortieth of the others, and on it
    or beyond at least so many.
  */
  lemma IntervalReads(group: Labels, values: Values, block: int, replicates: seq<seq<int>>)
    requires |group| == |values| && replicates != []
    requires StartsFault(|group|, block) == None && IsReplicates(|group|, block, replicates)
    ensures var c := ContrastOf(group, values, block, replicates);
      var n := Replicates(group, values, block, replicates, _ => true);
      && c.emptyReplicates + n == |replicates|
      && (c.low.Some? <==> n > 0) && (c.high.Some? <==> n > 0)
      && (n > 0 ==>
            && c.low.value <= c.high.value
            && Replicates(group, values, block, replicates, v => v < c.low.value) <= Tail(n)
            && Replicates(group, values, block, replicates, v => v <= c.low.value) >= Tail(n)
            && Replicates(group, values, block, replicates, v => v > c.high.value) <= Tail(n)
            && Replicates(group, values, block, replicates, v => v >= c.high.value) >= Tail(n))
  {
    var c := ContrastOf(group, values, block, replicates);
    var draws := Draws(group, values, block, replicates);
    DrawsBounded(group, values, block, replicates);
    ReplicatesCount(group, values, block, replicates, _ => true);
    CountBounds(draws, _ => true);
    if draws != [] {
      hide Draws, Replicates, CountIf, IsStarts, IsReplicates, Usable, Excluded, Mean, Tail;
      LowEndCounts(draws);
      HighEndCounts(draws);
      EndsInOrder(draws);
      var low, high := c.low.value, c.high.value;
      ReplicatesCount(group, values, block, replicates, v => v < low);
      ReplicatesCount(group, values, block, replicates, v => v <= low);
      ReplicatesCount(group, values, block, replicates, v => v > high);
      ReplicatesCount(group, values, block, replicates, v => v >= high);
      hide IntervalEnd;
      SameCount(draws, Below(low), v => v < low);
      SameCount(draws, UpTo(low), v => v <= low);
      SameCount(draws, Above(high), v => v > high);
      SameCount(draws, From(high), v => v >= high);
    }
  }

  lemma {:induction false} SameCount(xs: seq<real>, a: real -> bool, b: real -> bool)
    requires forall v :: a(v) <==> b(v)
    ensures CountIf(xs, a) == CountIf(xs, b)
  {
    if xs != [] { SameCount(xs[1..], a, b); }
  }

  lemma EndsInOrder(draws: seq<real>)
    requires draws != []
    ensures IntervalEnd(draws, TAIL).value <= IntervalEnd(draws, 1.0 - TAIL).value
  {
    SortPermutes(draws);
    var s := Sort(draws);
    RankAscends(|s|, TAIL, 1.0 - TAIL);
    InterpolateAscends(s, Rank(|s|, TAIL), Rank(|s|, 1.0 - TAIL));
  }

  /** Between evenly spaced statistics a percentile is read off the line they lie on. */
  lemma EvenlySpaced(ordered: seq<real>, a: real, d: real, q: real)
    requires ordered != [] && 0.0 <= q <= 1.0
    requires forall i :: 0 <= i < |ordered| ==> ordered[i] == a + d * i as real
    ensures Percentile(ordered, q) == a + d * (q * (|ordered| - 1) as real)
  {
    var pos := Rank(|ordered|, q);
    var low := pos.Floor;
    if low + 1 < |ordered| {
      assert ordered[low + 1] - ordered[low] == d * (low + 1) as real - d * low as real == d;
      assert d * low as real + d * (pos - low as real) == d * pos;
    } else {
      assert pos == low as real;
    }
  }

  /** The positions that carry a label, with a value or without. */
  ghost function Carrying(name: Label, group: Labels, values: Values, valued: bool): set<int>
    requires |group| == |values|
  {
    set i | 0 <= i < |group| && group[i] == name && values[i].Some? == valued
  }

  lemma {:induction false} UsableCounts(name: Label, group: Labels, values: Values)
    requires |group| == |values|
    ensures |Usable(name, group, values)| == |Carrying(name, group, values, true)|
    ensures Excluded(name, group, values) == |Carrying(name, group, values, false)|
  {
    if group == [] {
      assert Carrying(name, group, values, true) == {} && Carrying(name, group, values, false) == {};
    } else {
      var last := |group| - 1;
      UsableCounts(name, group[..last], values[..last]);
      CarryingNext(name, group, values, true);
      CarryingNext(name, group, values, false);
      hide Carrying;
    }
  }

  lemma CarryingNext(name: Label, group: Labels, values: Values, valued: bool)
    requires |group| == |values| && group != []
    ensures var last := |group| - 1;
      |Carrying(name, group, values, valued)| == |Carrying(name, group[..last], values[..last], valued)|
        + if group[last] == name && values[last].Some? == valued then 1 else 0
  {
    var last := |group| - 1;
    var before, all := Carrying(name, group[..last], values[..last], valued), Carrying(name, group, values, valued);
    var taken := group[last] == name && values[last].Some? == valued;
    forall i ensures i in all <==> i in before || (taken && i == last) {
      if 0 <= i < last { assert group[..last][i] == group[i] && values[..last][i] == values[i]; }
    }
    OneMore(before, all, last, taken);
  }

  lemma OneMore(before: set<int>, all: set<int>, x: int, taken: bool)
    requires x !in before && forall i :: i in all <==> i in before || (taken && i == x)
    ensures |all| == |before| + if taken then 1 else 0
  {
    if taken {
      forall i ensures i in all <==> i in before + {x} {}
      assert all == before + {x};
    } else {
      forall i ensures i in all <==> i in before {}
      assert all == before;
    }
  }

  /** The counts and means of a contrast are those of its arms, and its difference is the first less the second. */
  lemma ContrastReads(group: Labels, values: Values, block: int, replicates: seq<seq<int>>)
    requires |group| == |values|
    requires replicates != [] ==> StartsFault(|group|, block) == None && IsReplicates(|group|, block, replicates)
    ensures var c := ContrastOf(group, values, block, replicates);
      && c.blockLength == block
      && c.permittedN == |Carrying(Permitted, group, values, true)|
      && c.vetoedN == |Carrying(Vetoed, group, values, true)|
      && c.permittedExcluded == |Carrying(Permitted, group, values, false)|
      && c.vetoedExcluded == |Carrying(Vetoed, group, values, false)|
      && (c.permittedMean.Some? <==> c.permittedN > 0) && (c.vetoedMean.Some? <==> c.vetoedN > 0)
      && (c.permittedN > 0 ==> c.permittedMean.value == Sum(Usable(Permitted, group, values)) / c.permittedN as real)
      && (c.vetoedN > 0 ==> c.vetoedMean.value == Sum(Usable(Vetoed, group, values)) / c.vetoedN as real)
      && (c.difference.Some? <==> c.permittedN > 0 && c.vetoedN > 0)
      && (c.difference.Some? ==> c.difference.value == c.permittedMean.value - c.vetoedMean.value)
  {
    UsableCounts(Permitted, group, values);
    UsableCounts(Vetoed, group, values);
    DrawsBounded(group, values, block, replicates);
    hide Usable, Excluded, Carrying, Sum, Draws, IntervalEnd;
  }
}
