/** The sum reduction: `Sum` over windows that do not overlap and
    `SumOverlap` over windows that do. Each output channel is the sum of the
    channel's present values in the window, or NaN when the window misses
    more than `MaxMissing` of its expected observations there. */
module SumReduce {
  import opened Grid
  import opened Schedule
  import opened Accumulate
  import opened Windowed
  import Reduce

  /** The run parameters of a sum reduction: values are summed, and only the
      configuration's missing-data limit is read. */
  function SumParams(config: Reduce.Config, resample: Resampler, width: nat): Params {
    Params(Summing, width, config.maxMissing, resample)
  }

  /** `Sum`: one pass over the input, the accumulator reset between windows
      unless a window starts where the last emitted one did. At most one
      output per window, in window order; each is the gated sum of the chunks
      accumulated for it, all read from the input and none dated before the
      window's start. */
  method Sum(config: Reduce.Config, resample: Resampler, windows: seq<Window>, width: nat, input: seq<Chunk>)
    returns (out: seq<Chunk>, ghost ids: seq<nat>, ghost groups: seq<seq<Chunk>>)
    requires |windows| > 0
    requires forall c :: c in input ==> |c.data| == width
    ensures Traced(SumParams(config, resample, width), windows, |windows|, ids, groups, out)
    ensures |out| <= |windows|
    ensures forall k :: 0 <= k < |out| ==>
              out[k] == Emission(SumParams(config, resample, width), windows[ids[k]], groups[k])
    ensures forall k, c :: 0 <= k < |groups| && c in groups[k] ==> c in input && windows[ids[k]].start <= c.date
    ensures ids == RunOf(windows, input).ids && groups == RunOf(windows, input).groups
    ensures forall c :: c in RunOf(windows, input).history ==> Reported(groups, c)
  {
    var run := new WindowRun(SumParams(config, resample, width), windows);
    run.Run(input);
    out, ids, groups := run.out, run.ids, run.groups;
    RunAccounts(windows, input);
    TracedOutputs(SumParams(config, resample, width), windows, ids, groups, out);
  }

  /** `SumOverlap`: one pass over the input with a ledger of the admitted
      chunks; when a window closes, the chunks dated before the next window's
      start are subtracted back out. At most one output per window, in window
      order; each is the gated sum of the ledger it finalised, all read from
      the input. */
  method SumOverlap(config: Reduce.Config, resample: Resampler, windows: seq<Window>, width: nat, input: seq<Chunk>)
    returns (out: seq<Chunk>, ghost ids: seq<nat>, ghost groups: seq<seq<Chunk>>)
    requires |windows| > 0
    requires forall c :: c in input ==> |c.data| == width
    ensures Traced(SumParams(config, resample, width), windows, |windows|, ids, groups, out)
    ensures |out| <= |windows|
    ensures forall k :: 0 <= k < |out| ==>
              out[k] == Emission(SumParams(config, resample, width), windows[ids[k]], groups[k])
    ensures forall k, c :: 0 <= k < |groups| && c in groups[k] ==> c in input
    ensures forall c :: c in RunOf(windows, input).history ==> Reported(groups, c)
  {
    var run := new SlidingRun(SumParams(config, resample, width), windows);
    run.Run(input);
    out, ids, groups := run.out, run.ids, run.groups;
    TracedOutputs(SumParams(config, resample, width), windows, ids, groups, out);
  }

  /** The four daily chunks of a four-day window, every channel holding the
      day's index (0, 1, 2, 3). */
  function BasicDays(): seq<Chunk> {
    [Chunk(1, 0, 0, Row(Present(0.0))), Chunk(2, 0, 0, Row(Present(1.0))),
     Chunk(3, 0, 0, Row(Present(2.0))), Chunk(4, 0, 0, Row(Present(3.0)))]
  }

  /** Four channels holding the same value. */
  function Row(v: Value): seq<Value> {
    [v, v, v, v]
  }


  /** A non-overlapping `Sum` configuration over four channels allowing
      `maxMissing` missing observations. */
  function SumConfig(maxMissing: int): Reduce.Config {
    Reduce.Config("sum", Reduce.Sum, false, maxMissing, "", 0.0)
  }

  /** `Sum` over one four-day window whose four daily chunks are dated
      inside it, the last on its end: the run emits exactly one output, the
      window's emission over all four chunks. */
  method SumOneWindow(maxMissing: int, resample: Resampler, g: seq<Chunk>) returns (out: seq<Chunk>)
    requires |g| == 4 && forall k :: 0 <= k < 4 ==> g[k].date == k + 1 && |g[k].data| == 4
    ensures |out| == 1 && out[0] == Emission(SumParams(SumConfig(maxMissing), resample, 4), Window(1, 4, 4), g)
  {
    var w := Window(1, 4, 4);
    ghost var ids, groups;
    forall c | c in g
      ensures |c.data| == 4
    {
    }
    out, ids, groups := Sum(SumConfig(maxMissing), resample, [w], 4, g);
    RunOfSingleWindow(w, g);
    TracedOutputs(SumParams(SumConfig(maxMissing), resample, 4), [w], ids, groups, out);
  }

  /** `Sum` of 0, 1, 2 and 3 over a four-day window with one missing day
      allowed: one output, 6 in each of the four channels. */
  method SumBasicExample(resample: Resampler) returns (out: seq<Chunk>)
    ensures |out| == 1 && out[0].data == Row(Present(6.0))
  {
    var g := BasicDays();
    out := SumOneWindow(1, resample, g);
    var p := SumParams(SumConfig(1), resample, 4);
    forall i | 0 <= i < 4
      ensures out[0].data[i] == Present(6.0)
    {
      TalliesOfFour(Summing, g, i);
      EmissionChannel(p, Window(1, 4, 4), g, i);
    }
    EmissionChannel(p, Window(1, 4, 4), g, 0);
  }

  /** With no missing day allowed, `Sum` over a four-day window missing one
      day gives NaN in every channel; with one allowed, so does a window
      missing all four. */
  method SumMissingExamples(resample: Resampler) returns (out1: seq<Chunk>, out2: seq<Chunk>)
    ensures |out1| == 1 && out1[0].data == Row(Missing)
    ensures |out2| == 1 && out2[0].data == Row(Missing)
  {
    var w := Window(1, 4, 4);
    var g1 := BasicDays()[..3] + [Chunk(4, 0, 0, Row(Missing))];
    var g2 := [Chunk(1, 0, 0, Row(Missing)), Chunk(2, 0, 0, Row(Missing)),
               Chunk(3, 0, 0, Row(Missing)), Chunk(4, 0, 0, Row(Missing))];
    out1 := SumOneWindow(0, resample, g1);
    out2 := SumOneWindow(1, resample, g2);
    var p1, p2 := SumParams(SumConfig(0), resample, 4), SumParams(SumConfig(1), resample, 4);
    forall i | 0 <= i < 4
      ensures out1[0].data[i] == Missing && out2[0].data[i] == Missing
    {
      TalliesOfFour(Summing, g1, i);
      TalliesOfFour(Summing, g2, i);
      EmissionChannel(p1, w, g1, i);
      EmissionChannel(p2, w, g2, i);
    }
    EmissionChannel(p1, w, g1, 0);
    EmissionChannel(p2, w, g2, 0);
  }

  /** A channel reading 1 on every day but the first `m`, which are missing,
      sums to the number of days observed and counts them. */
  lemma {:induction false} OnesTallies(g: seq<Chunk>, m: nat, i: nat)
    requires m <= |g|
    requires forall k :: 0 <= k < |g| ==> i < |g[k].data| && g[k].data[i] == (if k < m then Missing else Present(1.0))
    ensures Total(Summing, g, i) == (|g| - m) as real && Count(Summing, g, i) == |g| - m
  {
    if |g| > m {
      OnesTallies(g[..|g| - 1], m, i);
    } else if g != [] {
      MissingTallies(Summing, g, i);
    }
  }

  /** The tolerance boundary, over a month-long window of 31 daily chunks
      with one missing day allowed: `Sum` emits one output, in which a
      channel reading 1 and missing on its first `m` days sums to 30 when one
      day is missing, to 31 when none is, and is NaN as soon as two are. */
  method SumToleranceBoundary(resample: Resampler, g: seq<Chunk>, m: nat, i: nat) returns (out: seq<Chunk>)
    requires |g| == 31 && m <= 31 && i < 4
    requires forall k :: 0 <= k < |g| ==> g[k].date == k + 1 && |g[k].data| == 4
    requires forall k :: 0 <= k < |g| ==> g[k].data[i] == (if k < m then Missing else Present(1.0))
    ensures |out| == 1 && |out[0].data| == 4
    ensures out[0].data[i] == Missing <==> m >= 2
    ensures m <= 1 ==> out[0].data[i] == Present((31 - m) as real)
  {
    var w := Window(1, 31, 31);
    var p := SumParams(SumConfig(1), resample, 4);
    ghost var ids, groups;
    forall c | c in g
      ensures |c.data| == 4
    {
    }
    out, ids, groups := Sum(SumConfig(1), resample, [w], 4, g);
    RunOfSingleWindow(w, g);
    TracedOutputs(p, [w], ids, groups, out);
    OnesTallies(g, m, i);
    EmissionChannel(p, w, g, i);
  }

  /** A channel missing in every chunk of the window has no observations: it
      is NaN exactly when the window expects more observations than the
      tolerance allows, and a sum of 0 otherwise. */
  lemma AllMissingWindow(p: Params, w: Window, g: seq<Chunk>, i: nat)
    requires g != [] && i < p.width
    requires forall k :: 0 <= k < |g| ==> i < |g[k].data| && g[k].data[i] == Missing
    ensures Emission(p, w, g).data[i] == Missing <==> w.len > p.maxMissing
    ensures w.len <= p.maxMissing ==> Emission(p, w, g).data[i] == Present(0.0)
  {
    MissingTallies(p.rule, g, i);
    EmissionChannel(p, w, g, i);
  }
}
