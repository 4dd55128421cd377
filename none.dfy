/** The `None` reduction: no values are combined. Each window that admits
    at least one chunk emits a chunk with no data, dated by resampling the
    date of the last chunk it admitted and carrying that chunk's position. */
module NoneReduce {
  import opened Grid
  import opened Accumulate
  import opened Schedule
  import Reduce

  /** `None`'s outputs are emissions over no channels: the gate never
      applies, so the missing-data limit plays no part. */
  function NoneParams(resample: Resampler): Params {
    Params(Summing, 0, 0, resample)
  }

  /** The chunk a window emits over no channels: the resampled date and the
      position of the last chunk the window admitted, and no data (the
      source's nil slice). */
  lemma NoneEmission(p: Params, w: Window, group: seq<Chunk>)
    requires group != [] && p.width == 0
    ensures var last := group[|group| - 1];
            Emission(p, w, group) == Chunk(p.resample(w, last.date), last.offset, last.length, [])
  {
  }

  /** The state of one `None` run: the variables the `nextRange` closure
      captures, plus the window and output streams. */
  class NoneRun {
    const p: Params          // `NoneParams` of the run's resampling
    const windows: seq<Window>

    var received: nat        // windows taken from the window source
    var dr: Window
    var drOk: bool
    var lastStart: int
    var lastAdmitted: Chunk  // the last chunk admitted (`inDC1`)
    var obsCnt: int
    var out: seq<Chunk>

    ghost var admitted: seq<Chunk>       // chunks admitted since the last reset
    ghost var history: seq<Chunk>        // every chunk admitted so far
    ghost var ids: seq<nat>              // the window each output reports
    ghost var groups: seq<seq<Chunk>>    // the chunks each output admitted

    /** The routing state of the run, as `Schedule` describes it. */
    ghost function State(): Pass
      reads this
    {
      Pass(received, drOk, lastStart, admitted, history, ids, groups)
    }

    /** `obsCnt` counts the chunks admitted since the last reset; every output
        so far is the emission of a distinct window among the first `closed`
        over the chunks admitted for it. */
    ghost predicate Inv(closed: nat)
      reads this
    {
      && p.width == 0
      && received <= |windows|
      && (drOk ==> 0 < received && dr == windows[received - 1])
      && obsCnt == |admitted|
      && (!drOk ==> obsCnt == 0)
      && (admitted != [] ==> lastAdmitted == admitted[|admitted| - 1])
      && Traced(p, windows, closed, ids, groups, out)
      && GroupsFromStart(windows, ids, groups)
    }

    /** Between steps: the windows taken so far, except the current one, are
        closed, and every chunk admitted is dated no earlier than the current
        window's start. */
    ghost predicate Valid()
      reads this
    {
      (drOk ==> 0 < received) && Inv(if drOk then received - 1 else received) && (drOk ==> FromStart(dr, admitted))
    }

    constructor (resample: Resampler, windows: seq<Window>)
      ensures Valid()
      ensures p == NoneParams(resample) && this.windows == windows
      ensures received == 0 && !drOk && out == [] && admitted == []
      ensures State() == Start
    {
      p := NoneParams(resample);
      this.windows := windows;
      received := 0;
      dr := Window(0, 0, 0);
      drOk := false;
      lastStart := 0;
      lastAdmitted := Chunk(0, 0, 0, []);
      obsCnt := 0;
      out := [];
      admitted := [];
      history := [];
      ids := [];
      groups := [];
    }

    /** The output chunk of the current window: no data, dated by resampling
        the last admitted chunk's date. */
    method Finalise() returns (outDC: Chunk)
      requires Valid() && obsCnt > 0
      ensures outDC == Emission(p, dr, admitted)
    {
      outDC := Chunk(p.resample(dr, lastAdmitted.date), lastAdmitted.offset, lastAdmitted.length, []);
      NoneEmission(p, dr, admitted);
    }

    /** The first half of `nextRange`: the current window, which admitted
        something, is emitted and becomes the last emitted start. */
    method Emit()
      requires Valid() && obsCnt > 0
      modifies this
      ensures Inv(received) && drOk && FromStart(dr, admitted) && lastStart == dr.start
      ensures out == old(out) + [Emission(p, old(dr), old(admitted))]
      ensures groups == old(groups) + [old(admitted)] && ids == old(ids) + [old(received) - 1]
      ensures received == old(received) && dr == old(dr) && drOk == old(drOk) && obsCnt == old(obsCnt)
      ensures admitted == old(admitted) && lastAdmitted == old(lastAdmitted) && history == old(history)
    {
      var outDC := Finalise();
      lastStart := dr.start;
      TracedEmit(p, windows, received - 1, ids, groups, out, received - 1, admitted);
      GroupsFromStartEmit(windows, ids, groups, received - 1, admitted);
      out := out + [outDC];
      ids := ids + [received - 1];
      groups := groups + [admitted];
    }

    /** The second half of `nextRange`: the next window is taken, and the
        count is reset unless a window was taken and it starts where the last
        emitted window did. */
    method Fetch()
      requires Inv(received)
      requires obsCnt > 0 ==> drOk && lastStart == dr.start && FromStart(dr, admitted)
      modifies this
      ensures Valid()
      ensures drOk <==> old(received) < |windows|
      ensures received == (if drOk then old(received) + 1 else old(received))
      ensures drOk ==> dr == windows[old(received)]
      ensures admitted == (if drOk && dr.start == lastStart then old(admitted) else [])
      ensures out == old(out) && ids == old(ids) && groups == old(groups)
      ensures lastAdmitted == old(lastAdmitted) && lastStart == old(lastStart) && history == old(history)
    {
      if received < |windows| {
        dr := windows[received];
        received := received + 1;
        drOk := true;
        IdsBelowWiden(ids, received - 1, received - 1, |windows|);
      } else {
        drOk := false;
      }
      if !(drOk && dr.start == lastStart) {
        obsCnt := 0;
        admitted := [];
      }
    }

    /** `nextRange`: emits the current window when it admitted anything, then
        takes the next window. */
    method NextRange()
      requires Valid()
      modifies this
      ensures Valid()
      ensures old(obsCnt) > 0 ==>
                out == old(out) + [Emission(p, old(dr), old(admitted))] &&
                groups == old(groups) + [old(admitted)] && lastStart == old(dr).start
      ensures old(obsCnt) == 0 ==> out == old(out) && groups == old(groups) && lastStart == old(lastStart)
      ensures drOk <==> old(received) < |windows|
      ensures received == (if drOk then old(received) + 1 else old(received))
      ensures drOk ==> dr == windows[old(received)]
      ensures admitted == (if drOk && dr.start == lastStart then old(admitted) else [])
      ensures lastAdmitted == old(lastAdmitted)
      ensures State() == NextRangeOf(windows, old(State()))
    {
      ghost var s0 := State();
      if obsCnt > 0 {
        Emit();
      } else {
        IdsBelowWiden(ids, if drOk then received - 1 else received, received, |windows|);
      }
      ghost var e := State();
      assert e == if s0.admitted != [] && 0 < s0.received <= |windows|
                  then s0.(ids := s0.ids + [s0.received - 1], groups := s0.groups + [s0.admitted],
                           lastStart := windows[s0.received - 1].start)
                  else s0;
      Fetch();
    }

    /** Admits `c` into the current window: it is counted and becomes the
        chunk the window's output is dated by. */
    method Admit(c: Chunk)
      requires Valid() && drOk && InWindow(dr, c.date)
      modifies this
      ensures Valid()
      ensures admitted == old(admitted) + [c] && obsCnt == old(obsCnt) + 1 && lastAdmitted == c
      ensures history == old(history) + [c]
      ensures received == old(received) && dr == old(dr) && drOk == old(drOk) && lastStart == old(lastStart)
      ensures out == old(out) && ids == old(ids) && groups == old(groups)
    {
      obsCnt := obsCnt + 1;
      lastAdmitted := c;
      admitted := admitted + [c];
      history := history + [c];
    }

    /** The windows `Advance` takes: the next one, and then, one recursive
        call per window, more while the current one ends before the chunk. */
    method TakeUntil(c: Chunk) returns (stop: bool)
      requires Valid()
      modifies this
      ensures Valid()
      ensures stop <==> !drOk
      ensures !stop ==> c.date <= dr.end
      ensures State() == AdvanceOf(windows, old(State()), c.date)
      decreases |windows| - received
    {
      ghost var s0 := State();
      NextRange();
      assert drOk ==> dr == windows[received - 1];
      AdvanceOfTurn(windows, s0, State(), c.date);
      if drOk && dr.end < c.date {
        stop := TakeUntil(c);
      } else {
        stop := !drOk;
      }
    }

    /** A chunk at or past the window's end closes it: the window is
        finalised (emitted when it admitted anything) and windows are taken
        until they run out (`stop`) or one no longer ends before the chunk. */
    method Advance(c: Chunk) returns (stop: bool)
      requires Valid() && drOk && dr.end <= c.date
      modifies this
      ensures Valid()
      ensures stop <==> !drOk
      ensures !stop ==> c.date <= dr.end
      ensures old(received) < received || stop
      ensures old(received) <= received && old(out) <= out && old(groups) <= groups
      ensures old(obsCnt) > 0 ==> |out| > |old(out)| && out[|old(out)|] == Emission(p, old(dr), old(admitted))
      ensures old(obsCnt) == 0 ==> out == old(out)
      ensures forall k :: |old(groups)| <= k < |groups| ==> groups[k] == old(admitted)
      ensures admitted == old(admitted) || admitted == []
      ensures forall j :: old(received) <= j < received - 1 ==> windows[j].end < c.date
      ensures history == old(history)
      ensures State() == AdvanceOf(windows, old(State()), c.date)
    {
      ghost var s0 := State();
      stop := TakeUntil(c);
      ghost var r := State();
      assert r.received == received && r.admitted == admitted && r.ids == ids && r.groups == groups;
      AdvanceOfFacts(windows, s0, c.date);
      EmittedFirst(p, windows, old(received) - 1, old(ids), old(groups), old(out),
                   if drOk then received - 1 else received, ids, groups, out, old(received) - 1, old(admitted));
    }

    /** One pass of the data loop over chunk `c`: a chunk dated before the
        window is skipped with nothing changed; one inside it is admitted; one
        at or past its end advances the windows, after admission when it lies
        on the end. */
    method Step(c: Chunk) returns (stop: bool)
      requires Valid() && drOk
      modifies this
      ensures Valid()
      ensures stop <==> !drOk
      ensures forall j :: old(received) <= j < received - 1 ==> windows[j].end < c.date
      ensures c.date < old(dr).start ==>
                !stop && dr == old(dr) && received == old(received) && admitted == old(admitted) &&
                obsCnt == old(obsCnt) && out == old(out) && lastStart == old(lastStart)
      ensures old(dr).start <= c.date < old(dr).end ==>
                !stop && dr == old(dr) && admitted == old(admitted) + [c] && obsCnt == old(obsCnt) + 1 &&
                lastAdmitted == c && out == old(out)
      ensures old(dr).start <= c.date == old(dr).end ==>
                |out| > |old(out)| && out[|old(out)|] == Emission(p, old(dr), old(admitted) + [c])
      ensures old(dr).start <= old(dr).end < c.date && old(obsCnt) > 0 ==>
                |out| > |old(out)| && out[|old(out)|] == Emission(p, old(dr), old(admitted))
      ensures old(dr).start <= old(dr).end < c.date && old(obsCnt) == 0 ==> out == old(out)
      ensures old(out) <= out && old(groups) <= groups && old(received) <= received
      ensures forall k :: |old(groups)| <= k < |groups| ==> groups[k] == old(admitted) + [c] || groups[k] == old(admitted)
      ensures admitted == old(admitted) || admitted == old(admitted) + [c] || admitted == []
      ensures old(dr).start <= c.date && old(dr).end < c.date ==>
                (admitted == old(admitted) || admitted == []) && history == old(history)
      ensures State() == StepOf(windows, old(State()), c)
    {
      ghost var s0 := State();
      assert dr == windows[received - 1];
      stop := false;
      if c.date < dr.start {
        assert StepOf(windows, s0, c) == s0;
        return;
      }
      if c.date <= dr.end {
        Admit(c);
      }
      ghost var a := State();
      assert a == if c.date <= dr.end then s0.(admitted := s0.admitted + [c], history := s0.history + [c]) else s0;
      if !(c.date < dr.end) {
        assert StepOf(windows, s0, c) == AdvanceOf(windows, a, c.date);
        stop := Advance(c);
      } else {
        assert StepOf(windows, s0, c) == a;
      }
    }

    /** The whole run over the chunk stream `input`: the first window is taken,
        the data loop skips, admits and advances, the last window is flushed,
        and the rest of the input is read and discarded. */
    method Run(input: seq<Chunk>)
      requires Valid()
      requires State() == Start && out == []
      requires |windows| > 0
      modifies this
      ensures Traced(p, windows, |windows|, ids, groups, out)
      ensures GroupsFromStart(windows, ids, groups)
      ensures forall k, c :: 0 <= k < |groups| && c in groups[k] ==> c in input
      ensures State() == RunOf(windows, input)
    {
      NextRange();
      ghost var looped := LoopOf(windows, State(), input);
      var i := 0;
      var stop := false;
      while i < |input| && !stop
        invariant 0 <= i <= |input|
        invariant Valid() && (drOk <==> !stop)
        invariant LoopOf(windows, State(), input[i..]) == looped
        decreases |input| - i
      {
        var inDC := input[i];
        assert input[i..][0] == inDC && input[i..][1..] == input[i + 1..];
        i := i + 1;
        stop := Step(inDC);
      }
      NextRange();
      // The rest of the input is read and discarded.
      while i < |input|
        invariant i <= |input|
      {
        i := i + 1;
      }
      IdsBelowWiden(ids, if drOk then received - 1 else received, |windows|, |windows|);
      RunAccounts(windows, input);
    }
  }

  /** `None`: at most one output per window, in window order; each carries
      no data and the resampled date and position of the last chunk its window
      admitted, all such chunks read from the input and none dated before
      the window's start. */
  method None(config: Reduce.Config, resample: Resampler, windows: seq<Window>, input: seq<Chunk>)
    returns (out: seq<Chunk>, ghost ids: seq<nat>, ghost groups: seq<seq<Chunk>>)
    requires |windows| > 0
    ensures |out| <= |windows|
    ensures |out| == |ids| == |groups|
    ensures forall k :: 0 <= k < |out| ==>
              ids[k] < |windows| && groups[k] != [] &&
              out[k] == Chunk(resample(windows[ids[k]], groups[k][|groups[k]| - 1].date),
                              groups[k][|groups[k]| - 1].offset, groups[k][|groups[k]| - 1].length, [])
    ensures forall j, k :: 0 <= j < k < |ids| ==> ids[j] < ids[k]
    ensures forall k, c :: 0 <= k < |groups| && c in groups[k] ==> c in input && windows[ids[k]].start <= c.date
    ensures ids == RunOf(windows, input).ids && groups == RunOf(windows, input).groups
    ensures forall c :: c in RunOf(windows, input).history ==> Reported(groups, c)
  {
    var run := new NoneRun(resample, windows);
    run.Run(input);
    out, ids, groups := run.out, run.ids, run.groups;
    RunAccounts(windows, input);
    TracedOutputs(NoneParams(resample), windows, ids, groups, out);
    forall k | 0 <= k < |out|
      ensures out[k] == Chunk(resample(windows[ids[k]], groups[k][|groups[k]| - 1].date),
                              groups[k][|groups[k]| - 1].offset, groups[k][|groups[k]| - 1].length, [])
    {
      NoneEmission(NoneParams(resample), windows[ids[k]], groups[k]);
    }
  }
}
