/** The threshold reduction: `Threshold` over windows that do not overlap
    and `ThresholdOverlap` over windows that do. Each output channel counts
    the channel's present values in the window that compare true against the
    threshold value, or is NaN when the window misses more than `MaxMissing`
    of its expected observations there. */
module ThresholdReduce {
  import opened Grid
  import opened Schedule
  import opened Accumulate
  import opened Windowed
  import Reduce

  /** The run parameters of a threshold reduction: the configuration's
      operator and value select what is counted. */
  function ThresholdParams(config: Reduce.Config, resample: Resampler, width: nat): Params {
    Params(Counting(config.threshold, config.thresholdValue), width, config.maxMissing, resample)
  }

  /** `Threshold`: one pass over the input, the counters reset between
      windows unless a window starts where the last emitted one did. At most
      one output per window, in window order; each is the gated match count
      of the chunks accumulated for it, all read from the input and none
      dated before the window's start. */
  method Threshold(config: Reduce.Config, resample: Resampler, windows: seq<Window>, width: nat, input: seq<Chunk>)
    returns (out: seq<Chunk>, ghost ids: seq<nat>, ghost groups: seq<seq<Chunk>>)
    requires |windows| > 0
    requires forall c :: c in input ==> |c.data| == width
    ensures Traced(ThresholdParams(config, resample, width), windows, |windows|, ids, groups, out)
    ensures |out| <= |windows|
    ensures forall k :: 0 <= k < |out| ==>
              out[k] == Emission(ThresholdParams(config, resample, width), windows[ids[k]], groups[k])
    ensures forall k, c :: 0 <= k < |groups| && c in groups[k] ==> c in input && windows[ids[k]].start <= c.date
    ensures ids == RunOf(windows, input).ids && groups == RunOf(windows, input).groups
    ensures forall c :: c in RunOf(windows, input).history ==> Reported(groups, c)
  {
    var run := new WindowRun(ThresholdParams(config, resample, width), windows);
    run.Run(input);
    out, ids, groups := run.out, run.ids, run.groups;
    RunAccounts(windows, input);
    TracedOutputs(ThresholdParams(config, resample, width), windows, ids, groups, out);
  }

  /** `ThresholdOverlap`: one pass over the input with a ledger of the
      admitted chunks; when a window closes, the chunks dated before the next
      window's start are taken back out of the counters. At most one output
      per window, in window order; each is the gated match count of the
      ledger it finalised, all read from the input. */
  method ThresholdOverlap(config: Reduce.Config, resample: Resampler, windows: seq<Window>, width: nat, input: seq<Chunk>)
    returns (out: seq<Chunk>, ghost ids: seq<nat>, ghost groups: seq<seq<Chunk>>)
    requires |windows| > 0
    requires forall c :: c in input ==> |c.data| == width
    ensures Traced(ThresholdParams(config, resample, width), windows, |windows|, ids, groups, out)
    ensures |out| <= |windows|
    ensures forall k :: 0 <= k < |out| ==>
              out[k] == Emission(ThresholdParams(config, resample, width), windows[ids[k]], groups[k])
    ensures forall k, c :: 0 <= k < |groups| && c in groups[k] ==> c in input
    ensures forall c :: c in RunOf(windows, input).history ==> Reported(groups, c)
  {
    var run := new SlidingRun(ThresholdParams(config, resample, width), windows);
    run.Run(input);
    out, ids, groups := run.out, run.ids, run.groups;
    TracedOutputs(ThresholdParams(config, resample, width), windows, ids, groups, out);
  }

  /** Every channel of a threshold output is NaN or a count between zero and
      the number of values observed there, which is at most the number of
      chunks accumulated. */
  lemma ThresholdEmissionBound(p: Params, w: Window, group: seq<Chunk>, i: nat)
    requires p.rule.Counting? && group != [] && i < p.width
    ensures Emission(p, w, group).data[i] == Missing ||
            0.0 <= Emission(p, w, group).data[i].x <= Count(p.rule, group, i) as real <= |group| as real
  {
    EmissionChannel(p, w, group, i);
    MatchBound(p.rule, group, i);
    CountBound(p.rule, group, i);
  }

  /** An operator other than the five falls through the operator switch:
      nothing is counted or matched in any channel. */
  lemma {:induction false} UnknownOperatorCountsNothing(op: string, t: real, cs: seq<Chunk>, i: nat)
    requires !Reduce.IsOp(op)
    ensures Total(Counting(op, t), cs, i) == 0.0 && Count(Counting(op, t), cs, i) == 0
  {
    if cs != [] {
      UnknownOperatorCountsNothing(op, t, cs[..|cs| - 1], i);
    }
  }

  /** One channel reading 1, 7, NaN, 3 on the four days of a window. */
  function MixedDays(): seq<Chunk> {
    [Chunk(1, 0, 0, [Present(1.0)]), Chunk(2, 0, 0, [Present(7.0)]),
     Chunk(3, 0, 0, [Missing]), Chunk(4, 0, 0, [Present(3.0)])]
  }

  /** Counting values below 5 with one missing day allowed. */
  function LtFive(): Reduce.Config {
    Reduce.Config("cnt_lt_5", Reduce.Threshold, false, 1, "lt", 5.0)
  }

  /** Over `MixedDays` the window has three observations, two of them below
      5, and one missing day is allowed: the count is 2. */
  lemma MixedDaysCount(resample: Resampler)
    ensures Emission(ThresholdParams(LtFive(), resample, 1), Window(1, 4, 4), MixedDays()).data == [Present(2.0)]
  {
    var p := ThresholdParams(LtFive(), resample, 1);
    TalliesOfFour(p.rule, MixedDays(), 0);
    EmissionChannel(p, Window(1, 4, 4), MixedDays(), 0);
  }

  /** `Threshold` over one four-day window whose four daily chunks of one
      channel are dated inside it, the last on its end: the run emits exactly
      one output, the window's emission over all four chunks. */
  method ThresholdOneWindow(config: Reduce.Config, resample: Resampler, g: seq<Chunk>) returns (out: seq<Chunk>)
    requires |g| == 4 && forall k :: 0 <= k < 4 ==> g[k].date == k + 1 && |g[k].data| == 1
    ensures |out| == 1 && out[0] == Emission(ThresholdParams(config, resample, 1), Window(1, 4, 4), g)
  {
    var w := Window(1, 4, 4);
    ghost var ids, groups;
    forall c | c in g
      ensures |c.data| == 1
    {
    }
    out, ids, groups := Threshold(config, resample, [w], 1, g);
    RunOfSingleWindow(w, g);
    TracedOutputs(ThresholdParams(config, resample, 1), [w], ids, groups, out);
  }

  /** `Threshold` counting values below 5 over a four-day window that allows
      one missing day, on `MixedDays`: one output, with three observations of
      which two match. */
  method ThresholdExample(resample: Resampler) returns (out: seq<Chunk>)
    ensures |out| == 1 && out[0].data == [Present(2.0)]
  {
    out := ThresholdOneWindow(LtFive(), resample, MixedDays());
    MixedDaysCount(resample);
  }

  /** What the retraction loop of `ThresholdOverlap`, as written, takes off
      the match count of channel `i`: one when the chunk `inDC` it reads has
      a present value there that fails the comparison. */
  function WrittenDrop(op: string, t: real, inDC: Chunk, i: nat): (r: real)
    ensures r == 0.0 || r == 1.0
    ensures r == 1.0 <==> Observed(Counting(op, t), inDC, i) == 1 && Gain(Counting(op, t), inDC, i) == 0.0
  {
    if i < |inDC.data| && inDC.data[i].Present? && Reduce.IsOp(op) && !Matches(op, inDC.data[i].x, t) then 1.0 else 0.0
  }

  /** The retraction loop of `ThresholdOverlap` as written: it reads the
      chunk `inDC` that closed the window rather than the evicted head chunk,
      adds one to the observation count of each present value, and takes one
      off the match count of each value that fails the comparison. */
  method RetractAsWritten(op: string, t: real, pCnt: array<real>, cnt: array<int>, inDC: Chunk)
    requires |inDC.data| <= pCnt.Length && pCnt.Length == cnt.Length
    modifies pCnt, cnt
    ensures forall i :: 0 <= i < pCnt.Length ==>
              pCnt[i] == old(pCnt[i]) - WrittenDrop(op, t, inDC, i) &&
              cnt[i] == old(cnt[i]) + Observed(Counting(op, t), inDC, i)
  {
    for idx := 0 to |inDC.data|
      invariant forall i :: 0 <= i < pCnt.Length ==>
                  pCnt[i] == old(pCnt[i]) - (if i < idx then WrittenDrop(op, t, inDC, i) else 0.0) &&
                  cnt[i] == old(cnt[i]) + (if i < idx then Observed(Counting(op, t), inDC, i) else 0)
    {
      if Reduce.IsOp(op) && inDC.data[idx].Present? {
        var v := inDC.data[idx].x;
        cnt[idx] := cnt[idx] + 1;
        if !Matches(op, v, t) {
          pCnt[idx] := pCnt[idx] - 1.0;
        }
      }
    }
  }

  /** As written, evicting a chunk with a present value in channel `i` never
      brings the channel's observation count down to that of the chunks that
      remain, whatever chunk closed the window: the count goes up instead. */
  lemma AsWrittenCountDiverges(op: string, t: real, c: Chunk, cs: seq<Chunk>, inDC: Chunk, i: nat)
    requires Reduce.IsOp(op) && i < |c.data| && c.data[i].Present?
    ensures Count(Counting(op, t), [c] + cs, i) + Observed(Counting(op, t), inDC, i) > Count(Counting(op, t), cs, i)
  {
    TalliesHead(Counting(op, t), c, cs, i);
  }

  /** Two-day windows [1, 2] and [2, 3] under `lt 5` with no missing day
      allowed, over three chunks reading 1 on days 1, 2 and 3. The first
      window admits days 1 and 2 (count 2, 2 observations). Taking the second
      window evicts day 1 while day 2 is the chunk being read, so the
      retraction as written leaves count 2 and 3 observations; admitting day 3
      then gives 3 and 4, and the gate emits 3. The inverse retraction
      `RemoveChunk` performs leaves the tallies of days 2 and 3, and the gate
      emits 2. */
  lemma AsWrittenRetractionExample(c1: Chunk, c2: Chunk, c3: Chunk)
    requires c1.date == 1 && c2.date == 2 && c3.date == 3
    requires c1.data == c2.data == c3.data == [Present(1.0)]
    ensures var rule := Counting("lt", 5.0);
            var written := Total(rule, [c1, c2], 0) - WrittenDrop("lt", 5.0, c2, 0) + Gain(rule, c3, 0);
            var observed := Count(rule, [c1, c2], 0) + Observed(rule, c2, 0) + Observed(rule, c3, 0);
            && Gate(2, 0, observed, written) == Present(3.0)
            && Total(rule, [c1, c2], 0) - Gain(rule, c1, 0) + Gain(rule, c3, 0) == Total(rule, [c2, c3], 0)
            && Count(rule, [c1, c2], 0) - Observed(rule, c1, 0) + Observed(rule, c3, 0) == Count(rule, [c2, c3], 0)
            && Gate(2, 0, Count(rule, [c2, c3], 0), Total(rule, [c2, c3], 0)) == Present(2.0)
  {
    var rule := Counting("lt", 5.0);
    assert Matches("lt", 1.0, 5.0);
    assert Gain(rule, c1, 0) == Gain(rule, c2, 0) == Gain(rule, c3, 0) == 1.0 && WrittenDrop("lt", 5.0, c2, 0) == 0.0;
    assert Observed(rule, c1, 0) == Observed(rule, c2, 0) == Observed(rule, c3, 0) == 1;
    TalliesAppend(rule, [], c1, 0);
    TalliesAppend(rule, [c1], c2, 0);
    TalliesAppend(rule, [], c2, 0);
    TalliesAppend(rule, [c2], c3, 0);
    assert [] + [c1] == [c1] && [c1] + [c2] == [c1, c2] && [] + [c2] == [c2] && [c2] + [c3] == [c2, c3];
  }
}
