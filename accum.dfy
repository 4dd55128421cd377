/** The per-window accumulator shared by the sum and threshold reductions:
    two per-channel arrays (`sum` or `pCnt`, and `cnt`), the admission and
    retraction steps that update them, the missing-data gate applied when a
    window is finalised, and the record of what a run has emitted. The two
    reductions differ only in what admission adds to the first array, which
    `Rule` selects. */
module Accumulate {
  import opened Grid
  import Reduce

  /** What the first accumulator array adds up: the channel values (`Sum`),
      or the observations `v` with `v op t` (`Threshold`, whose first array is
      `pCnt`). */
  datatype Rule = Summing | Counting(op: string, t: real)

  /** The parameters of one run: the accumulation rule, the number of
      channels of every chunk, the missing-data limit and the window's
      resampling of dates. */
  datatype Params = Params(rule: Rule, width: nat, maxMissing: int, resample: Resampler)

  /** The threshold comparison of each of the five operators; any other
      operator compares nothing. */
  predicate Matches(op: string, v: real, t: real): (b: bool)
    ensures b ==> Reduce.IsOp(op)
  {
    if op == "lt" then v < t
    else if op == "gt" then v > t
    else if op == "le" then v <= t
    else if op == "ge" then v >= t
    else if op == "eq" then v == t
    else false
  }

  /** The five comparisons pair up as complements (`lt` with `ge`, `gt`
      with `le`), and `le` and `ge` are `lt` and `gt` widened by `eq`. */
  lemma MatchesDuals(v: real, t: real)
    ensures Matches("lt", v, t) <==> !Matches("ge", v, t)
    ensures Matches("gt", v, t) <==> !Matches("le", v, t)
    ensures Matches("le", v, t) <==> Matches("lt", v, t) || Matches("eq", v, t)
    ensures Matches("ge", v, t) <==> Matches("gt", v, t) || Matches("eq", v, t)
  {
  }

  /** Whether admission touches the channel counters at all: always for sums;
      for thresholds only under one of the five operators, since any other
      operator falls through the operator switch. */
  predicate Active(rule: Rule) {
    rule.Summing? || Reduce.IsOp(rule.op)
  }

  /** 1 when admitting `c` counts an observation in channel `i`. */
  function Observed(rule: Rule, c: Chunk, i: nat): nat {
    if i < |c.data| && c.data[i].Present? && Active(rule) then 1 else 0
  }

  /** What admitting `c` adds to channel `i` of the first array: the value,
      or one when the value passes the comparison. Missing values add nothing. */
  function Gain(rule: Rule, c: Chunk, i: nat): real {
    if i < |c.data| && c.data[i].Present? then
      match rule
      case Summing => c.data[i].x
      case Counting(op, t) => if Matches(op, c.data[i].x, t) then 1.0 else 0.0
    else 0.0
  }

  /** Channel `i` of the first array after admitting exactly `cs`. */
  function Total(rule: Rule, cs: seq<Chunk>, i: nat): real {
    if cs == [] then 0.0 else Total(rule, cs[..|cs| - 1], i) + Gain(rule, cs[|cs| - 1], i)
  }

  /** Channel `i`'s observation count after admitting exactly `cs`. */
  function Count(rule: Rule, cs: seq<Chunk>, i: nat): nat {
    if cs == [] then 0 else Count(rule, cs[..|cs| - 1], i) + Observed(rule, cs[|cs| - 1], i)
  }

  /** Admitting `c` after `cs` adds exactly `c`'s gain and observation. */
  lemma {:induction false} TalliesAppend(rule: Rule, cs: seq<Chunk>, c: Chunk, i: nat)
    ensures Total(rule, cs + [c], i) == Total(rule, cs, i) + Gain(rule, c, i)
    ensures Count(rule, cs + [c], i) == Count(rule, cs, i) + Observed(rule, c, i)
  {
    assert (cs + [c])[..|cs|] == cs;
  }

  /** Retraction is the inverse of admission: taking the head chunk's gain and
      observation back out of the totals of `[c] + cs` leaves exactly the
      totals of the chunks that remain. */
  lemma {:induction false} TalliesHead(rule: Rule, c: Chunk, cs: seq<Chunk>, i: nat)
    ensures Total(rule, [c] + cs, i) - Gain(rule, c, i) == Total(rule, cs, i)
    ensures Count(rule, [c] + cs, i) - Observed(rule, c, i) == Count(rule, cs, i)
  {
    if cs != [] {
      var init := cs[..|cs| - 1];
      assert ([c] + cs)[..|cs|] == [c] + init;
      TalliesHead(rule, c, init, i);
    }
  }

  /** The totals of four chunks, channel by channel: their gains and
      observations added up. */
  lemma TalliesOfFour(rule: Rule, g: seq<Chunk>, i: nat)
    requires |g| == 4
    ensures Total(rule, g, i) == Gain(rule, g[0], i) + Gain(rule, g[1], i) + Gain(rule, g[2], i) + Gain(rule, g[3], i)
    ensures Count(rule, g, i) == Observed(rule, g[0], i) + Observed(rule, g[1], i) + Observed(rule, g[2], i) + Observed(rule, g[3], i)
  {
    var g3, g2, g1 := g[..3], g[..2], g[..1];
    assert g3[..2] == g2 && g2[..1] == g1 && g1[..0] == [];
    assert Total(rule, g1, i) == Gain(rule, g[0], i) && Count(rule, g1, i) == Observed(rule, g[0], i);
    assert Total(rule, g2, i) == Total(rule, g1, i) + Gain(rule, g[1], i);
    assert Count(rule, g2, i) == Count(rule, g1, i) + Observed(rule, g[1], i);
    assert Total(rule, g3, i) == Total(rule, g2, i) + Gain(rule, g[2], i);
    assert Count(rule, g3, i) == Count(rule, g2, i) + Observed(rule, g[2], i);
  }

  /** A channel missing in every chunk gains nothing and counts nothing. */
  lemma {:induction false} MissingTallies(rule: Rule, cs: seq<Chunk>, i: nat)
    requires forall k :: 0 <= k < |cs| ==> i < |cs[k].data| && cs[k].data[i] == Missing
    ensures Total(rule, cs, i) == 0.0 && Count(rule, cs, i) == 0
  {
    if cs != [] {
      MissingTallies(rule, cs[..|cs| - 1], i);
    }
  }

  /** A channel never has more observations than there are chunks. */
  lemma {:induction false} CountBound(rule: Rule, cs: seq<Chunk>, i: nat)
    ensures Count(rule, cs, i) <= |cs|
  {
    if cs != [] {
      CountBound(rule, cs[..|cs| - 1], i);
    }
  }

  /** A threshold count lies between zero and the channel's observation
      count: a value is matched only when it is also counted. */
  lemma {:induction false} MatchBound(rule: Rule, cs: seq<Chunk>, i: nat)
    requires rule.Counting?
    ensures 0.0 <= Total(rule, cs, i) <= Count(rule, cs, i) as real
  {
    if cs != [] {
      MatchBound(rule, cs[..|cs| - 1], i);
    }
  }

  /** The missing-data gate of one channel: NaN when more than `maxMissing` of
      the `expected` observations are missing, the accumulated value otherwise. */
  function Gate(expected: int, maxMissing: int, observed: int, acc: real): (v: Value)
    ensures v == Missing <==> expected - observed > maxMissing
    ensures v != Missing ==> v == Present(acc)
  {
    if expected - observed > maxMissing then Missing else Present(acc)
  }

  /** The gated payload of the first `n` channels of a window expecting
      `expected` observations whose accumulator admitted `group`. */
  function Gated(rule: Rule, expected: int, maxMissing: int, group: seq<Chunk>, n: nat): (r: seq<Value>)
    ensures |r| == n
  {
    if n == 0 then []
    else Gated(rule, expected, maxMissing, group, n - 1) +
         [Gate(expected, maxMissing, Count(rule, group, n - 1), Total(rule, group, n - 1))]
  }

  /** Channel `i` of the gated payload is NaN exactly when the window is
      missing more than `maxMissing` observations there, and otherwise the
      channel's accumulated value. */
  lemma {:induction false} GatedChannel(rule: Rule, expected: int, maxMissing: int, group: seq<Chunk>, n: nat, i: nat)
    requires i < n
    ensures Gated(rule, expected, maxMissing, group, n)[i] == Missing <==>
            expected - Count(rule, group, i) > maxMissing
    ensures Gated(rule, expected, maxMissing, group, n)[i] != Missing ==>
            Gated(rule, expected, maxMissing, group, n)[i] == Present(Total(rule, group, i))
  {
    if i < n - 1 {
      GatedChannel(rule, expected, maxMissing, group, n - 1, i);
    }
  }

  /** The chunk a window emits when its accumulator admitted `group`: dated by
      the window's resampling of the last admitted chunk's date, with that
      chunk's offset and length and the gated payload. */
  function Emission(p: Params, w: Window, group: seq<Chunk>): (r: Chunk)
    requires group != []
    ensures |r.data| == p.width
    ensures r.date == p.resample(w, group[|group| - 1].date)
    ensures r.offset == group[|group| - 1].offset && r.length == group[|group| - 1].length
  {
    var rep := group[|group| - 1];
    Chunk(p.resample(w, rep.date), rep.offset, rep.length, Gated(p.rule, w.len, p.maxMissing, group, p.width))
  }

  /** An emitted chunk has one entry per channel; each is NaN exactly when
      the window expects more than `maxMissing` observations beyond those the
      channel has, and otherwise the channel's sum or match count. Its date
      and position come from the last admitted chunk. */
  lemma EmissionChannel(p: Params, w: Window, group: seq<Chunk>, i: nat)
    requires group != [] && i < p.width
    ensures |Emission(p, w, group).data| == p.width
    ensures Emission(p, w, group).data[i] == Missing <==> w.len - Count(p.rule, group, i) > p.maxMissing
    ensures Emission(p, w, group).data[i] != Missing ==> Emission(p, w, group).data[i] == Present(Total(p.rule, group, i))
    ensures Emission(p, w, group).date == p.resample(w, group[|group| - 1].date)
    ensures Emission(p, w, group).offset == group[|group| - 1].offset
    ensures Emission(p, w, group).length == group[|group| - 1].length
  {
    GatedChannel(p.rule, w.len, p.maxMissing, group, p.width, i);
  }

  /** The emission loop: one entry per accumulator channel, NaN where the
      window misses too many observations, the accumulated value elsewhere. */
  method FinaliseChannels(expCnt: int, maxMissing: int, acc: array<real>, cnt: array<int>) returns (res: seq<Value>)
    requires acc.Length == cnt.Length
    ensures |res| == acc.Length
    ensures forall i :: 0 <= i < |res| ==> res[i] == Gate(expCnt, maxMissing, cnt[i], acc[i])
  {
    var r := new Value[acc.Length];
    for idx := 0 to acc.Length
      invariant forall i :: 0 <= i < idx ==> r[i] == Gate(expCnt, maxMissing, cnt[i], acc[i])
    {
      if expCnt - cnt[idx] > maxMissing {
        r[idx] := Missing;
      } else {
        r[idx] := Present(acc[idx]);
      }
    }
    res := r[..];
  }

  /** Finalising arrays that hold the totals of `group` gives the gated
      payload of `group`. */
  lemma FinalisedIsGated(rule: Rule, expected: int, maxMissing: int, group: seq<Chunk>,
                         res: seq<Value>, acc: seq<real>, counts: seq<int>)
    requires |res| == |acc| == |counts|
    requires forall i :: 0 <= i < |res| ==> res[i] == Gate(expected, maxMissing, counts[i], acc[i])
    requires forall i :: 0 <= i < |acc| ==> acc[i] == Total(rule, group, i) && counts[i] == Count(rule, group, i)
    ensures res == Gated(rule, expected, maxMissing, group, |res|)
  {
    forall i | 0 <= i < |res|
      ensures res[i] == Gated(rule, expected, maxMissing, group, |res|)[i]
    {
      GatedChannel(rule, expected, maxMissing, group, |res|, i);
    }
  }

  /** The accumulator arrays hold, channel by channel, the totals and counts
      of admitting exactly `cs`; no arrays means nothing was admitted. */
  ghost predicate Totals(rule: Rule, acc: array?<real>, cnt: array?<int>, cs: seq<Chunk>, width: nat)
    reads acc, cnt
  {
    acc != null ==>
      && cnt != null && acc.Length == width && cnt.Length == width
      && forall i :: 0 <= i < width ==> acc[i] == Total(rule, cs, i) && cnt[i] == Count(rule, cs, i)
  }

  /** The arrays the first admission after a reset allocates, one entry per
      channel: zeroed, they hold the totals of no chunks. */
  method NewTotals(rule: Rule, width: nat) returns (acc: array<real>, cnt: array<int>)
    ensures fresh(acc) && fresh(cnt)
    ensures Totals(rule, acc, cnt, [], width)
  {
    acc := new real[width](_ => 0.0);
    cnt := new int[width](_ => 0);
  }

  /** The admission loop: each present value adds its gain to its channel
      and counts one observation there; missing values change nothing. Arrays
      that held the totals of `cs` then hold those of `cs + [c]`. */
  method AddChunk(rule: Rule, acc: array<real>, cnt: array<int>, c: Chunk, ghost cs: seq<Chunk>)
    requires |c.data| <= acc.Length && acc.Length == cnt.Length
    requires Totals(rule, acc, cnt, cs, acc.Length)
    modifies acc, cnt
    ensures forall i :: 0 <= i < acc.Length ==>
              acc[i] == old(acc[i]) + Gain(rule, c, i) && cnt[i] == old(cnt[i]) + Observed(rule, c, i)
    ensures Totals(rule, acc, cnt, cs + [c], acc.Length)
  {
    for idx := 0 to |c.data|
      invariant forall i :: 0 <= i < acc.Length ==>
                  acc[i] == old(acc[i]) + (if i < idx then Gain(rule, c, i) else 0.0) &&
                  cnt[i] == old(cnt[i]) + (if i < idx then Observed(rule, c, i) else 0)
    {
      if c.data[idx].Present? {
        var v := c.data[idx].x;
        match rule
        case Summing =>
          acc[idx] := acc[idx] + v;
          cnt[idx] := cnt[idx] + 1;
        case Counting(op, t) =>
          if Reduce.IsOp(op) {
            cnt[idx] := cnt[idx] + 1;
            if Matches(op, v, t) {
              acc[idx] := acc[idx] + 1.0;
            }
          }
      }
    }
    TotalsAdmit(rule, acc, cnt, cs, c, acc.Length);
  }

  /** The retraction loop: the exact inverse of `AddChunk`, taking each
      present value's gain and observation back out of its channel. Arrays
      that held the totals of `[c] + cs` then hold those of `cs`. */
  method RemoveChunk(rule: Rule, acc: array<real>, cnt: array<int>, c: Chunk, ghost cs: seq<Chunk>)
    requires |c.data| <= acc.Length && acc.Length == cnt.Length
    requires Totals(rule, acc, cnt, [c] + cs, acc.Length)
    modifies acc, cnt
    ensures forall i :: 0 <= i < acc.Length ==>
              acc[i] == old(acc[i]) - Gain(rule, c, i) && cnt[i] == old(cnt[i]) - Observed(rule, c, i)
    ensures Totals(rule, acc, cnt, cs, acc.Length)
  {
    for idx := 0 to |c.data|
      invariant forall i :: 0 <= i < acc.Length ==>
                  acc[i] == old(acc[i]) - (if i < idx then Gain(rule, c, i) else 0.0) &&
                  cnt[i] == old(cnt[i]) - (if i < idx then Observed(rule, c, i) else 0)
    {
      if c.data[idx].Present? {
        var v := c.data[idx].x;
        match rule
        case Summing =>
          acc[idx] := acc[idx] - v;
          cnt[idx] := cnt[idx] - 1;
        case Counting(op, t) =>
          if Reduce.IsOp(op) {
            cnt[idx] := cnt[idx] - 1;
            if Matches(op, v, t) {
              acc[idx] := acc[idx] - 1.0;
            }
          }
      }
    }
    TotalsRetract(rule, acc, cnt, c, cs, acc.Length);
  }

  /** After admitting `c` into arrays holding the totals of `cs`, they hold
      the totals of `cs + [c]`. */
  lemma TotalsAdmit(rule: Rule, acc: array<real>, cnt: array<int>, cs: seq<Chunk>, c: Chunk, width: nat)
    requires acc.Length == width && cnt.Length == width
    requires forall i :: 0 <= i < width ==>
               acc[i] == Total(rule, cs, i) + Gain(rule, c, i) && cnt[i] == Count(rule, cs, i) + Observed(rule, c, i)
    ensures Totals(rule, acc, cnt, cs + [c], width)
  {
    forall i | 0 <= i < width
      ensures acc[i] == Total(rule, cs + [c], i) && cnt[i] == Count(rule, cs + [c], i)
    {
      TalliesAppend(rule, cs, c, i);
    }
  }

  /** After retracting the head `c` from arrays holding the totals of
      `[c] + cs`, they hold the totals of `cs`. */
  lemma TotalsRetract(rule: Rule, acc: array<real>, cnt: array<int>, c: Chunk, cs: seq<Chunk>, width: nat)
    requires acc.Length == width && cnt.Length == width
    requires forall i :: 0 <= i < width ==>
               acc[i] == Total(rule, [c] + cs, i) - Gain(rule, c, i) &&
               cnt[i] == Count(rule, [c] + cs, i) - Observed(rule, c, i)
    ensures Totals(rule, acc, cnt, cs, width)
  {
    forall i | 0 <= i < width
      ensures acc[i] == Total(rule, cs, i) && cnt[i] == Count(rule, cs, i)
    {
      TalliesHead(rule, c, cs, i);
    }
  }

  /** The outputs a run emits for the windows `ids` over the accumulated
      `groups`, in order. */
  ghost function Emitted(p: Params, windows: seq<Window>, ids: seq<nat>, groups: seq<seq<Chunk>>): (r: seq<Chunk>)
    requires |ids| == |groups|
    requires forall k :: 0 <= k < |ids| ==> ids[k] < |windows| && groups[k] != []
    ensures |r| == |ids|
  {
    if ids == [] then []
    else
      var n := |ids| - 1;
      Emitted(p, windows, ids[..n], groups[..n]) + [Emission(p, windows[ids[n]], groups[n])]
  }

  /** Output `k` is the emission of window `ids[k]` over `groups[k]`. */
  lemma {:induction false} EmittedIndex(p: Params, windows: seq<Window>, ids: seq<nat>, groups: seq<seq<Chunk>>, k: nat)
    requires |ids| == |groups|
    requires forall j :: 0 <= j < |ids| ==> ids[j] < |windows| && groups[j] != []
    requires k < |ids|
    ensures Emitted(p, windows, ids, groups)[k] == Emission(p, windows[ids[k]], groups[k])
  {
    var n := |ids| - 1;
    if k < n {
      EmittedIndex(p, windows, ids[..n], groups[..n], k);
    }
  }

  /** Outputs are only ever appended: the emissions of a prefix of the
      windows and groups are a prefix of the emissions of the whole. */
  lemma {:induction false} EmittedPrefix(p: Params, windows: seq<Window>, ids0: seq<nat>, groups0: seq<seq<Chunk>>,
                                         ids: seq<nat>, groups: seq<seq<Chunk>>)
    requires |ids| == |groups| && |ids0| == |groups0|
    requires forall j :: 0 <= j < |ids| ==> ids[j] < |windows| && groups[j] != []
    requires ids0 <= ids && groups0 <= groups
    ensures Emitted(p, windows, ids0, groups0) <= Emitted(p, windows, ids, groups)
    decreases |ids|
  {
    if |ids0| < |ids| {
      var n := |ids| - 1;
      EmittedPrefix(p, windows, ids0, groups0, ids[..n], groups[..n]);
    } else {
      assert ids0 == ids && groups0 == groups;
    }
  }

  /** Outputs that were only appended to: when a non-empty `group` was
      finalised first, under window `id`, the first new output is its
      emission; when nothing was, no output was added. */
  lemma EmittedFirst(p: Params, windows: seq<Window>, closed0: nat, ids0: seq<nat>, groups0: seq<seq<Chunk>>, out0: seq<Chunk>,
                     closed: nat, ids: seq<nat>, groups: seq<seq<Chunk>>, out: seq<Chunk>, id: nat, group: seq<Chunk>)
    requires Traced(p, windows, closed0, ids0, groups0, out0) && Traced(p, windows, closed, ids, groups, out)
    requires ids0 <= ids && groups0 <= groups
    requires group == [] ==> ids == ids0 && groups == groups0
    requires group != [] ==> |ids0| < |ids| && ids[|ids0|] == id && groups[|ids0|] == group
    ensures out0 <= out
    ensures group == [] ==> out == out0
    ensures group != [] ==> |out| > |out0| && id < |windows| && out[|out0|] == Emission(p, windows[id], group)
  {
    EmittedPrefix(p, windows, ids0, groups0, ids, groups);
    if group != [] {
      EmittedIndex(p, windows, ids, groups, |ids0|);
    }
  }

  /** The outputs so far: each reports a distinct window among the first
      `closed`, in increasing order, and is that window's emission over the
      chunks accumulated for it. */
  ghost predicate Traced(p: Params, windows: seq<Window>, closed: nat, ids: seq<nat>, groups: seq<seq<Chunk>>, out: seq<Chunk>) {
    && IdsBelow(ids, closed, |windows|)
    && |groups| == |ids|
    && (forall k :: 0 <= k < |ids| ==> groups[k] != [])
    && out == Emitted(p, windows, ids, groups)
  }

  /** Emitting window `id`, not yet closed, over `group` extends the trace and
      closes every window up to `id`. */
  lemma TracedEmit(p: Params, windows: seq<Window>, closed: nat, ids: seq<nat>, groups: seq<seq<Chunk>>,
                   out: seq<Chunk>, id: nat, group: seq<Chunk>)
    requires Traced(p, windows, closed, ids, groups, out)
    requires closed <= id < |windows| && group != []
    ensures Traced(p, windows, id + 1, ids + [id], groups + [group], out + [Emission(p, windows[id], group)])
  {
    IdsBelowExtend(ids, closed, |windows|, id);
    assert (ids + [id])[..|ids|] == ids;
    assert (groups + [group])[..|ids|] == groups;
  }

  /** A finished trace names at most one output per window, and output `k`
      is the emission of window `ids[k]` over the chunks `groups[k]`. */
  lemma TracedOutputs(p: Params, windows: seq<Window>, ids: seq<nat>, groups: seq<seq<Chunk>>, out: seq<Chunk>)
    requires Traced(p, windows, |windows|, ids, groups, out)
    ensures |out| == |ids| == |groups| <= |windows|
    ensures forall k :: 0 <= k < |out| ==>
              ids[k] < |windows| && groups[k] != [] && out[k] == Emission(p, windows[ids[k]], groups[k])
  {
    IncreasingIndicesBound(ids, |windows|);
    forall k | 0 <= k < |out|
      ensures out[k] == Emission(p, windows[ids[k]], groups[k])
    {
      EmittedIndex(p, windows, ids, groups, k);
    }
  }

  /** Every chunk an output accumulated is dated no earlier than the start of
      the window it reports. */
  ghost predicate GroupsFromStart(windows: seq<Window>, ids: seq<nat>, groups: seq<seq<Chunk>>) {
    forall k :: 0 <= k < |groups| && 0 <= k < |ids| && ids[k] < |windows| ==> FromStart(windows[ids[k]], groups[k])
  }

  /** Every chunk of `group` is dated no earlier than `w` starts. */
  ghost predicate FromStart(w: Window, group: seq<Chunk>) {
    forall c :: c in group ==> w.start <= c.date
  }

  lemma GroupsFromStartEmit(windows: seq<Window>, ids: seq<nat>, groups: seq<seq<Chunk>>, id: nat, group: seq<Chunk>)
    requires GroupsFromStart(windows, ids, groups) && |ids| == |groups|
    requires id < |windows| && forall c :: c in group ==> windows[id].start <= c.date
    ensures GroupsFromStart(windows, ids + [id], groups + [group])
  {
  }
}
