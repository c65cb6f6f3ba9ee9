/**
  `study_decomposition.block_mean`: the bootstrap's resampling applied to the mean
  of a subset. A position outside the subset, or without a value, is a gap.
*/
module BlockMean {
  import opened Wrappers
  import opened Ordering
  import opened Bootstrap

  datatype MeanInterval = MeanInterval(
    n: nat, missing: nat, mean: Option<real>, low: Option<real>, high: Option<real>)

  /** Values outside the subset are dropped. */
  function Used(values: Values, inside: seq<bool>): (r: Values)
    requires |values| == |inside|
  {
    seq(|values|, i requires 0 <= i < |values| => if inside[i] then values[i] else None)
  }

  function AllIn(length: nat): (r: seq<bool>)
  {
    seq(length, _ => true)
  }

  /** The subset as one bootstrap arm. */
  function Arm(length: nat): (r: Labels)
  {
    seq(length, _ => Permitted)
  }

  function Missing(values: Values, inside: seq<bool>): nat
    requires |values| == |inside|
  {
    |set i | 0 <= i < |values| && inside[i] && values[i] == None|
  }

  function Present(used: Values): seq<real>
  {
    Usable(Permitted, Arm(|used|), used)
  }

  /** A replicate's mean over the positions it drew, when it drew a value at all. */
  function DrawMean(used: Values, at: seq<int>): Option<real>
    requires Inside(at, |used|)
  {
    var count := Tally(Permitted, Counts, Arm(|used|), used, at);
    if count == 0.0 then None else Some(Tally(Permitted, Sums, Arm(|used|), used, at) / count)
  }

  function DrawMeans(used: Values, block: int, replicates: seq<seq<int>>): seq<real>
    requires StartsFault(|used|, block) == None && IsReplicates(|used|, block, replicates)
  {
    if replicates == [] then []
    else
      var last := |replicates| - 1;
      PositionsInRange(|used|, block, replicates[last]);
      var d := DrawMean(used, Positions(replicates[last], block, |used|));
      DrawMeans(used, block, replicates[..last]) + (if d.Some? then [d.value] else [])
  }

  /** What the mean and its interval are, said without prefix sums. */
  function MeanOf(values: Values, inside: seq<bool>, block: int, replicates: seq<seq<int>>): MeanInterval
    requires |values| == |inside|
    requires replicates != [] && Present(Used(values, inside)) != [] ==>
      StartsFault(|values|, block) == None && IsReplicates(|values|, block, replicates)
  {
    var used := Used(values, inside);
    if Present(used) == [] then MeanInterval(0, Missing(values, inside), None, None, None)
    else
      var draws := if replicates == [] then [] else DrawMeans(used, block, replicates);
      MeanInterval(|Present(used)|, Missing(values, inside), Mean(Present(used)),
                   IntervalEnd(draws, TAIL), IntervalEnd(draws, 1.0 - TAIL))
  }

  method BlockMean(values: Values, subset: Option<seq<bool>>, block: int, replicates: seq<seq<int>>)
    returns (r: Result<MeanInterval, Fault>)
    requires IsReplicates(|values|, block, replicates)
    ensures subset.Some? && |subset.value| != |values| ==> r == Failure(LengthMismatch)
    ensures subset.None? || |subset.value| == |values| ==>
      var inside := if subset.None? then AllIn(|values|) else subset.value;
      if Present(Used(values, inside)) != [] && replicates != [] && StartsFault(|values|, block).Some?
      then r == Failure(StartsFault(|values|, block).value)
      else r == Success(MeanOf(values, inside, block, replicates))
  {
    var inside := if subset.None? then AllIn(|values|) else subset.value;
    if |inside| != |values| { return Failure(LengthMismatch); }
    var used := Used(values, inside);
    var present := Present(used);
    var missing := Missing(values, inside);
    if present == [] { return Success(MeanInterval(0, missing, None, None, None)); }
    var arm := Arm(|used|);
    var sums := Prefix(Permitted, Sums, arm, used);
    var counts := Prefix(Permitted, Counts, arm, used);
    var draws: seq<real> := [];
    for n := 0 to |replicates|
      invariant n > 0 ==> StartsFault(|used|, block) == None
      invariant draws == if n == 0 then [] else DrawMeans(used, block, replicates[..n])
    {
      var fault := StartsFault(|used|, block);
      if fault.Some? { return Failure(fault.value); }
      assert replicates[..n + 1][..n] == replicates[..n];
      if block < 0 { NoStarts(|used|, block, replicates[n]); }
      var totals := Totals(arm, used, [(Permitted, Sums), (Permitted, Counts)], [sums, counts],
                           replicates[n], if block < 0 then 0 else block);
      if totals[1] != 0.0 { draws := draws + [totals[0] / totals[1]]; }
    }
    assert replicates[..|replicates|] == replicates;
    r := Success(MeanInterval(|present|, missing, Mean(present),
                              IntervalEnd(draws, TAIL), IntervalEnd(draws, 1.0 - TAIL)));
  }

  // ------------------------------------------------ one bootstrap behind both reports

  /** Membership of one arm, as a subset. */
  function Members(name: Label, group: Labels): (r: seq<bool>)
  {
    seq(|group|, i requires 0 <= i < |group| => group[i] == name)
  }

  lemma {:induction false} TallyOfArm(name: Label, m: Measure, group: Labels, values: Values, at: seq<int>)
    requires |group| == |values| && Inside(at, |group|)
    ensures Tally(Permitted, m, Arm(|values|), Used(values, Members(name, group)), at)
         == Tally(name, m, group, values, at)
  {
    if at != [] { TallyOfArm(name, m, group, values, at[..|at| - 1]); }
  }

  /** A contrast replicate is the difference of the two arms' single-mean replicates. */
  lemma DrawIsDifferenceOfMeans(group: Labels, values: Values, at: seq<int>)
    requires |group| == |values| && Inside(at, |group|)
    ensures Draw(group, values, at) == Difference(DrawMean(Used(values, Members(Permitted, group)), at),
                                                  DrawMean(Used(values, Members(Vetoed, group)), at))
  {
    TallyOfArm(Permitted, Sums, group, values, at);
    TallyOfArm(Permitted, Counts, group, values, at);
    TallyOfArm(Vetoed, Sums, group, values, at);
    TallyOfArm(Vetoed, Counts, group, values, at);
  }

  // ------------------------------------------------------------ what a mean reads as

  /** The values inside the subset at a list of positions. */
  function Drawn(used: Values, at: seq<int>): seq<real>
    requires Inside(at, |used|)
  {
    Picked(Permitted, Arm(|used|), used, at)
  }

  /** A replicate's mean is the mean of the values it drew. */
  lemma DrawMeanReads(used: Values, at: seq<int>)
    requires Inside(at, |used|)
    ensures DrawMean(used, at).Some? <==> Drawn(used, at) != []
    ensures Drawn(used, at) != [] ==> DrawMean(used, at).value == Sum(Drawn(used, at)) / |Drawn(used, at)| as real
  {
    TallyPicks(Permitted, Arm(|used|), used, at);
    hide Tally, Picked, Sum;
  }

  /** The counts are the subset's, and the interval is in order and reaches past few replicates on either side. */
  lemma MeanReads(values: Values, inside: seq<bool>, block: int, replicates: seq<seq<int>>)
    requires |values| == |inside|
    requires replicates != [] ==> StartsFault(|values|, block) == None && IsReplicates(|values|, block, replicates)
    ensures var m := MeanOf(values, inside, block, replicates);
      && m.n == |set i | 0 <= i < |values| && inside[i] && values[i].Some?|
      && m.missing == |set i | 0 <= i < |values| && inside[i] && values[i] == None|
      && (m.mean.Some? <==> m.n > 0)
      && (m.n > 0 ==> m.mean.value == Sum(Present(Used(values, inside))) / m.n as real)
      && (m.n == 0 ==> m.low == None && m.high == None)
    ensures replicates != [] && MeanOf(values, inside, block, replicates).n > 0 ==>
      var m, draws := MeanOf(values, inside, block, replicates), DrawMeans(Used(values, inside), block, replicates);
      && (m.low.Some? <==> draws != []) && (m.high.Some? <==> draws != [])
      && (draws != [] ==>
            && m.low.value <= m.high.value
            && CountIf(draws, Below(m.low.value)) <= Tail(|draws|) <= CountIf(draws, UpTo(m.low.value))
            && CountIf(draws, Above(m.high.value)) <= Tail(|draws|) <= CountIf(draws, From(m.high.value)))
  {
    var used := Used(values, inside);
    UsableCounts(Permitted, Arm(|used|), used);
    assert Carrying(Permitted, Arm(|used|), used, true) == set i | 0 <= i < |values| && inside[i] && values[i].Some?;
    hide Carrying, Usable, Sum, Tail, CountIf, IntervalEnd;
    if replicates != [] && Present(used) != [] {
      var draws := DrawMeans(used, block, replicates);
      if draws != [] {
        LowEndCounts(draws);
        HighEndCounts(draws);
        EndsInOrder(draws);
      }
      EndThere(draws, TAIL);
      EndThere(draws, 1.0 - TAIL);
    }
  }
}
