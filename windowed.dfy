/** The window synchroniser shared by the sum and threshold reductions: the
    `nextRange` closure and the data loop, over the accumulator of
    `Accumulate`. `WindowRun` is the single-pass form (`Sum`, `Threshold`),
    which resets the accumulator between windows unless the new window starts
    where the last emitted one did; `SlidingRun` is the overlapping form
    (`SumOverlap`, `ThresholdOverlap`), which keeps a ledger of the admitted
    chunks and retracts the ones the new window has moved past. */
module Windowed {
  import opened Grid
  import opened Accumulate
  import opened Schedule

  /** The state of one single-pass run: the variables the `nextRange` closure
      captures, plus the window and output streams. */
  class WindowRun {
    const p: Params
    const windows: seq<Window>

    var received: nat        // windows taken from the window source
    var dr: Window
    var drOk: bool
    var lastStart: int
    var lastAdmitted: Chunk  // the last chunk admitted (`inDC1`)
    var obsCnt: int
    var acc: array?<real>    // `sum` or `pCnt`
    var cnt: array?<int>
    var out: seq<Chunk>

    ghost var admitted: seq<Chunk>       // chunks accumulated since the last reset
    ghost var history: seq<Chunk>        // every chunk admitted so far
    ghost var ids: seq<nat>              // the window each output reports
    ghost var groups: seq<seq<Chunk>>    // the chunks each output accumulated

    /** The routing state of the run, as `Schedule` describes it. */
    ghost function State(): Pass
      reads this
    {
      Pass(received, drOk, lastStart, admitted, history, ids, groups)
    }

    /** `obsCnt` counts the chunks accumulated since the last reset and the
        arrays exist exactly when it is positive; every output so far is the
        emission of a distinct window among the first `closed` over the
        chunks accumulated for it. The arrays' contents are stated apart, by
        `Totals`. */
    ghost predicate Inv(closed: nat)
      reads this
    {
      && received <= |windows|
      && (drOk ==> 0 < received && dr == windows[received - 1])
      && obsCnt == |admitted|
      && (!drOk ==> obsCnt == 0)
      && (acc == null <==> obsCnt == 0)
      && (admitted != [] ==> lastAdmitted == admitted[|admitted| - 1])
      && Traced(p, windows, closed, ids, groups, out)
      && GroupsFromStart(windows, ids, groups)
    }

    /** Between steps: the windows taken so far, except the current one, are
        closed, and every chunk accumulated is dated no earlier than the
        current window's start. */
    ghost predicate Valid()
      reads this
    {
      (drOk ==> 0 < received) && Inv(if drOk then received - 1 else received) && (drOk ==> FromStart(dr, admitted))
    }

    constructor (p: Params, windows: seq<Window>)
      ensures Valid() && Totals(p.rule, acc, cnt, admitted, p.width)
      ensures this.p == p && this.windows == windows
      ensures received == 0 && !drOk && out == [] && admitted == [] && acc == null && cnt == null
      ensures State() == Start
    {
      this.p := p;
      this.windows := windows;
      received := 0;
      dr := Window(0, 0, 0);
      drOk := false;
      lastStart := 0;
      lastAdmitted := Chunk(0, 0, 0, []);
      obsCnt := 0;
      acc := null;
      cnt := null;
      out := [];
      admitted := [];
      history := [];
      ids := [];
      groups := [];
    }

    /** The output chunk of the current window: its gated channels, dated by
        resampling the last admitted chunk's date. */
    method Finalise() returns (outDC: Chunk)
      requires Valid() && Totals(p.rule, acc, cnt, admitted, p.width) && obsCnt > 0
      ensures outDC == Emission(p, dr, admitted)
    {
      var res := FinaliseChannels(dr.len, p.maxMissing, acc, cnt);
      FinalisedIsGated(p.rule, dr.len, p.maxMissing, admitted, res, acc[..], cnt[..]);
      outDC := Chunk(p.resample(dr, lastAdmitted.date), lastAdmitted.offset, lastAdmitted.length, res);
    }

    /** The first half of `nextRange`: the current window, which admitted
        something, is emitted and becomes the last emitted start. */
    method Emit()
      requires Valid() && Totals(p.rule, acc, cnt, admitted, p.width) && obsCnt > 0
      modifies this
      ensures Inv(received) && drOk && FromStart(dr, admitted) && lastStart == dr.start
      ensures out == old(out) + [Emission(p, old(dr), old(admitted))]
      ensures groups == old(groups) + [old(admitted)] && ids == old(ids) + [old(received) - 1]
      ensures received == old(received) && dr == old(dr) && drOk == old(drOk) && obsCnt == old(obsCnt)
      ensures admitted == old(admitted) && lastAdmitted == old(lastAdmitted) && history == old(history)
      ensures acc == old(acc) && cnt == old(cnt)
    {
      var outDC := Finalise();
      lastStart := dr.start;
      TracedEmit(p, windows, received - 1, ids, groups, out, received - 1, admitted);
      GroupsFromStartEmit(windows, ids, groups, received - 1, admitted);
      out := out + [outDC];
      ids := ids + [received - 1];
      groups := groups + [admitted];
    }

    /** The second half of `nextRange`: the next window is taken, and the
        accumulator is reset unless a window was taken and it starts where the
        last emitted window did. */
    method Fetch()
      requires Inv(received) && Totals(p.rule, acc, cnt, admitted, p.width)
      requires obsCnt > 0 ==> drOk && lastStart == dr.start && FromStart(dr, admitted)
      modifies this
      ensures Valid() && Totals(p.rule, acc, cnt, admitted, p.width)
      ensures drOk <==> old(received) < |windows|
      ensures received == (if drOk then old(received) + 1 else old(received))
      ensures drOk ==> dr == windows[old(received)]
      ensures admitted == (if drOk && dr.start == lastStart then old(admitted) else [])
      ensures acc == (if drOk && dr.start == lastStart then old(acc) else null)
      ensures out == old(out) && ids == old(ids) && groups == old(groups)
      ensures cnt == old(cnt) && lastAdmitted == old(lastAdmitted) && lastStart == old(lastStart)
      ensures history == old(history)
    {
      // The reset depends only on the window about to be taken, so it is
      // decided before that window is installed.
      var ok := received < |windows|;
      var next := if ok then windows[received] else dr;
      if !(ok && next.start == lastStart) {
        Reset();
      }
      Install(next, ok);
    }

    /** Clears the accumulator: no chunk is counted and the arrays go. */
    method Reset()
      requires Inv(received)
      modifies this
      ensures Inv(received) && obsCnt == 0 && admitted == [] && acc == null
      ensures received == old(received) && dr == old(dr) && drOk == old(drOk) && lastStart == old(lastStart)
      ensures out == old(out) && ids == old(ids) && groups == old(groups)
      ensures cnt == old(cnt) && lastAdmitted == old(lastAdmitted) && history == old(history)
    {
      acc := null;
      obsCnt := 0;
      admitted := [];
    }

    /** Makes `next` the current window when `ok`, or records that the
        windows have run out. */
    method Install(next: Window, ok: bool)
      requires Inv(received)
      requires ok <==> received < |windows|
      requires ok ==> next == windows[received]
      requires obsCnt > 0 ==> ok && next.start == lastStart && FromStart(next, admitted)
      modifies this
      ensures Valid()
      ensures drOk == ok && dr == (if ok then next else old(dr))
      ensures received == (if ok then old(received) + 1 else old(received))
      ensures obsCnt == old(obsCnt) && admitted == old(admitted) && acc == old(acc) && cnt == old(cnt)
      ensures out == old(out) && ids == old(ids) && groups == old(groups)
      ensures lastAdmitted == old(lastAdmitted) && lastStart == old(lastStart) && history == old(history)
    {
      if ok {
        dr := next;
        received := received + 1;
        drOk := true;
        IdsBelowWiden(ids, received - 1, received - 1, |windows|);
      } else {
        drOk := false;
      }
    }

    /** `nextRange`: emits the current window when it admitted anything, takes
        the next window, and resets the accumulator unless a window was taken
        and it starts where the last emitted window did. */
    method NextRange()
      requires Valid() && Totals(p.rule, acc, cnt, admitted, p.width)
      modifies this
      ensures Valid() && Totals(p.rule, acc, cnt, admitted, p.width)
      ensures old(obsCnt) > 0 ==>
                out == old(out) + [Emission(p, old(dr), old(admitted))] &&
                groups == old(groups) + [old(admitted)] && lastStart == old(dr).start
      ensures old(obsCnt) == 0 ==> out == old(out) && groups == old(groups) && lastStart == old(lastStart)
      ensures drOk <==> old(received) < |windows|
      ensures received == (if drOk then old(received) + 1 else old(received))
      ensures drOk ==> dr == windows[old(received)]
      ensures admitted == (if drOk && dr.start == lastStart then old(admitted) else [])
      ensures acc == (if drOk && dr.start == lastStart then old(acc) else null)
      ensures cnt == old(cnt) && lastAdmitted == old(lastAdmitted)
      ensures State() == NextRangeOf(windows, old(State()))
    {
      ghost var s0 := State();
      if obsCnt > 0 {
        Emit();
      } else {
        IdsBelowWiden(ids, if drOk then received - 1 else received, received, |windows|);
      }
      ghost var e := State();
      assert e == if s0.admitted != [] && 0 < s0.received <= |windows|
                  then s0.(ids := s0.ids + [s0.received - 1], groups := s0.groups + [s0.admitted],
                           lastStart := windows[s0.received - 1].start)
                  else s0;
      Fetch();
    }

    /** Adds the gains of `c` to the running arrays, creating them when
        nothing has been accumulated since the last reset. */
    method Accrue(c: Chunk)
      requires Totals(p.rule, acc, cnt, admitted, p.width) && (acc == null <==> admitted == []) && |c.data| == p.width
      modifies this, acc, cnt
      ensures Totals(p.rule, acc, cnt, admitted + [c], p.width) && acc != null
      ensures old(acc) != null ==> acc == old(acc) && cnt == old(cnt)
      ensures old(acc) == null ==> fresh(acc) && fresh(cnt)
      ensures received == old(received) && dr == old(dr) && drOk == old(drOk) && obsCnt == old(obsCnt)
      ensures admitted == old(admitted) && lastAdmitted == old(lastAdmitted) && lastStart == old(lastStart)
      ensures out == old(out) && ids == old(ids) && groups == old(groups) && history == old(history)
    {
      if acc == null {
        acc, cnt := NewTotals(p.rule, |c.data|);
      }
      AddChunk(p.rule, acc, cnt, c, admitted);
    }

    /** Admits `c` into the current window: each present value adds its gain
        to its channel and counts there; the arrays are allocated by the first
        admission after a reset. */
    method Admit(c: Chunk)
      requires Valid() && Totals(p.rule, acc, cnt, admitted, p.width)
      requires drOk && InWindow(dr, c.date) && |c.data| == p.width
      modifies this, acc, cnt
      ensures Valid() && Totals(p.rule, acc, cnt, admitted, p.width)
      ensures admitted == old(admitted) + [c] && obsCnt == old(obsCnt) + 1 && lastAdmitted == c
      ensures history == old(history) + [c]
      ensures old(acc) != null ==> acc == old(acc) && cnt == old(cnt)
      ensures old(acc) == null ==> fresh(acc) && fresh(cnt)
      ensures received == old(received) && dr == old(dr) && drOk == old(drOk) && lastStart == old(lastStart)
      ensures out == old(out) && ids == old(ids) && groups == old(groups)
    {
      Accrue(c);
      obsCnt := obsCnt + 1;
      lastAdmitted := c;
      admitted := admitted + [c];
      history := history + [c];
    }

    /** The windows `Advance` takes: the next one, and then, one recursive
        call per window, more while the current one ends before the chunk. */
    method TakeUntil(c: Chunk) returns (stop: bool)
      requires Valid() && Totals(p.rule, acc, cnt, admitted, p.width)
      modifies this
      ensures Valid() && Totals(p.rule, acc, cnt, admitted, p.width)
      ensures stop <==> !drOk
      ensures !stop ==> c.date <= dr.end
      ensures State() == AdvanceOf(windows, old(State()), c.date)
      ensures cnt == old(cnt) && (acc == null || acc == old(acc))
      decreases |windows| - received
    {
      ghost var s0 := State();
      NextRange();
      AdvanceOfTurn(windows, s0, State(), c.date);
      if drOk && dr.end < c.date {
        stop := TakeUntil(c);
      } else {
        stop := !drOk;
      }
    }

    /** A chunk at or past the window's end closes it: the window is
        finalised (emitted when it admitted anything) and windows are taken
        until they run out (`stop`) or one no longer ends before the chunk. */
    method Advance(c: Chunk) returns (stop: bool)
      requires Valid() && Totals(p.rule, acc, cnt, admitted, p.width)
      requires drOk && dr.end <= c.date
      modifies this
      ensures Valid() && Totals(p.rule, acc, cnt, admitted, p.width)
      ensures stop <==> !drOk
      ensures !stop ==> c.date <= dr.end
      ensures old(received) < received || stop
      ensures old(received) <= received
      ensures old(out) <= out && old(groups) <= groups
      ensures old(obsCnt) > 0 ==> |out| > |old(out)| && out[|old(out)|] == Emission(p, old(dr), old(admitted))
      ensures old(obsCnt) == 0 ==> out == old(out)
      ensures forall k :: |old(groups)| <= k < |groups| ==> groups[k] == old(admitted)
      ensures admitted == old(admitted) || admitted == []
      ensures cnt == old(cnt) && (acc == null || acc == old(acc))
      ensures forall j :: old(received) <= j < received - 1 ==> windows[j].end < c.date
      ensures history == old(history)
      ensures State() == AdvanceOf(windows, old(State()), c.date)
    {
      ghost var s0 := State();
      stop := TakeUntil(c);
      ghost var r := State();
      assert r.received == received && r.admitted == admitted && r.ids == ids && r.groups == groups;
      AdvanceOfFacts(windows, s0, c.date);
      EmittedFirst(p, windows, old(received) - 1, old(ids), old(groups), old(out),
                   if drOk then received - 1 else received, ids, groups, out, old(received) - 1, old(admitted));
    }

    /** One pass of the data loop over chunk `c`: a chunk dated before the
        window is skipped with nothing changed; one inside it is admitted; one
        at or past its end advances the windows, after admission when it lies
        on the end. */
    method Step(c: Chunk) returns (stop: bool)
      requires Valid() && Totals(p.rule, acc, cnt, admitted, p.width)
      requires drOk && |c.data| == p.width
      modifies this, acc, cnt
      ensures Valid() && Totals(p.rule, acc, cnt, admitted, p.width)
      ensures stop <==> !drOk
      ensures forall j :: old(received) <= j < received - 1 ==> windows[j].end < c.date
      ensures c.date < old(dr).start ==>
                !stop && dr == old(dr) && received == old(received) && admitted == old(admitted) &&
                obsCnt == old(obsCnt) && out == old(out) && acc == old(acc) && cnt == old(cnt) &&
                lastStart == old(lastStart)
      ensures old(dr).start <= c.date < old(dr).end ==>
                !stop && dr == old(dr) && admitted == old(admitted) + [c] && obsCnt == old(obsCnt) + 1 &&
                lastAdmitted == c && out == old(out)
      ensures old(dr).start <= c.date == old(dr).end ==>
                |out| > |old(out)| && out[|old(out)|] == Emission(p, old(dr), old(admitted) + [c])
      ensures old(dr).start <= old(dr).end < c.date && old(obsCnt) > 0 ==>
                |out| > |old(out)| && out[|old(out)|] == Emission(p, old(dr), old(admitted))
      ensures old(dr).start <= old(dr).end < c.date && old(obsCnt) == 0 ==> out == old(out)
      ensures old(out) <= out && old(groups) <= groups && old(received) <= received
      ensures forall k :: |old(groups)| <= k < |groups| ==> groups[k] == old(admitted) + [c] || groups[k] == old(admitted)
      ensures admitted == old(admitted) || admitted == old(admitted) + [c] || admitted == []
      ensures old(dr).start <= c.date && old(dr).end < c.date ==>
                (admitted == old(admitted) || admitted == []) && history == old(history)
      ensures acc == null || acc == old(acc) || fresh(acc)
      ensures cnt == old(cnt) || fresh(cnt)
      ensures State() == StepOf(windows, old(State()), c)
    {
      ghost var s0 := State();
      assert dr == windows[received - 1];
      stop := false;
      if c.date < dr.start {
        assert StepOf(windows, s0, c) == s0;
        return;
      }
      if c.date <= dr.end {
        Admit(c);
      }
      ghost var a := State();
      assert a == if c.date <= dr.end then s0.(admitted := s0.admitted + [c], history := s0.history + [c]) else s0;
      if !(c.date < dr.end) {
        assert StepOf(windows, s0, c) == AdvanceOf(windows, a, c.date);
        stop := Advance(c);
      } else {
        assert StepOf(windows, s0, c) == a;
      }
    }

    /** The whole run over the chunk stream `input`: the first window is taken,
        the data loop skips, admits and advances, the last window is flushed,
        and the rest of the input is read and discarded. */
    method Run(input: seq<Chunk>)
      requires Valid() && Totals(p.rule, acc, cnt, admitted, p.width)
      requires State() == Start && out == [] && acc == null && cnt == null
      requires |windows| > 0
      requires forall c :: c in input ==> |c.data| == p.width
      modifies this
      ensures Traced(p, windows, |windows|, ids, groups, out)
      ensures GroupsFromStart(windows, ids, groups)
      ensures forall k, c :: 0 <= k < |groups| && c in groups[k] ==> c in input
      ensures State() == RunOf(windows, input)
    {
      NextRange();
      ghost var looped := LoopOf(windows, State(), input);
      var i := 0;
      var stop := false;
      while i < |input| && !stop
        invariant 0 <= i <= |input|
        invariant Valid() && Totals(p.rule, acc, cnt, admitted, p.width) && (drOk <==> !stop)
        invariant LoopOf(windows, State(), input[i..]) == looped
        invariant acc == null || fresh(acc)
        invariant cnt == null || fresh(cnt)
        decreases |input| - i
      {
        var inDC := input[i];
        assert input[i..][0] == inDC && input[i..][1..] == input[i + 1..];
        i := i + 1;
        stop := Step(inDC);
      }
      NextRange();
      // The rest of the input is read and discarded.
      while i < |input|
        invariant i <= |input|
      {
        i := i + 1;
      }
      IdsBelowWiden(ids, if drOk then received - 1 else received, |windows|, |windows|);
      RunAccounts(windows, input);
    }
  }

  /** Emitting the ledger, a tail of the history, finalises only admitted
      chunks. */
  lemma DrawnEmit(groups: seq<seq<Chunk>>, history: seq<Chunk>, ledger: seq<Chunk>)
    requires Drawn(groups, history)
    requires |ledger| <= |history| && ledger == history[|history| - |ledger|..]
    ensures Drawn(groups + [ledger], history)
  {
    forall k, x | 0 <= k < |groups| + 1 && x in (groups + [ledger])[k]
      ensures x in history
    {
      if k == |groups| {
        var j :| 0 <= j < |ledger| && ledger[j] == x;
        assert x == history[|history| - |ledger| + j];
      }
    }
  }

  /** Evicting the head chunks dated before a later start keeps the ledger
      covered at that start. */
  lemma CoveredSlides(windows: seq<Window>, history: seq<Chunk>, ledger: seq<Chunk>, s0: int, s1: int)
    requires Covered(windows, history, ledger, s0) && s0 <= s1
    ensures Covered(windows, history, DropBefore(ledger, s1), s1)
  {
    if StartsSorted(windows) && Sorted(history) {
      LedgerSlides(history, ledger, s0, s1);
    }
  }

  /** Every chunk some output finalised was admitted. */
  ghost predicate Drawn(groups: seq<seq<Chunk>>, history: seq<Chunk>) {
    forall k, c :: 0 <= k < |groups| && c in groups[k] ==> c in history
  }

  /** Admitting a chunk the current window covers appends it to both the
      history and the ledger: the ledger stays the history's tail, and under
      ordered input and window starts it still holds exactly the chunks the
      start covers. */
  lemma LedgerGrows(windows: seq<Window>, history: seq<Chunk>, ledger: seq<Chunk>, c: Chunk, s: int)
    requires |ledger| <= |history| && ledger == history[|history| - |ledger|..]
    requires StartsSorted(windows) && Sorted(history) ==> ledger == Since(history, s)
    requires s <= c.date
    ensures ledger + [c] == (history + [c])[|history + [c]| - |ledger + [c]|..]
    ensures StartsSorted(windows) && Sorted(history + [c]) ==> ledger + [c] == Since(history + [c], s)
  {
    ghost var n := |history| - |ledger|;
    assert (history + [c])[n..] == history[n..] + [c];
    if StartsSorted(windows) && Sorted(history + [c]) {
      SortedPrefix(history + [c], |history|);
      assert (history + [c])[..|history|] == history;
      SinceAppend(history, c, s);
    }
  }

  /** Reading the chunk at position `i` of the input: whatever was admitted
      from the first `i` chunks, with or without that chunk appended, was read
      from the first `i + 1`, and an ordered input keeps it ordered. */
  lemma ReadInOrder(input: seq<Chunk>, i: nat, history: seq<Chunk>)
    requires i < |input|
    requires forall x :: x in history ==> x in input[..i]
    requires Sorted(input) ==> Sorted(history)
    ensures forall x :: x in history ==> x in input[..i + 1]
    ensures forall x :: x in history + [input[i]] ==> x in input[..i + 1]
    ensures Sorted(input) ==> Sorted(history + [input[i]])
  {
    assert input[..i + 1] == input[..i] + [input[i]];
    if Sorted(input) {
      forall x | x in history
        ensures x.date <= input[i].date
      {
        SortedBefore(input, i, x);
      }
      SortedAppend(history, input[i]);
    }
  }

  /** The ledger is the most recently admitted chunks, in arrival order, all
      of the run's width; the arrays exist exactly when it is not empty. */
  ghost predicate Ledgered(noArrays: bool, ledger: seq<Chunk>, history: seq<Chunk>, width: nat) {
    && (noArrays <==> ledger == [])
    && (forall c :: c in ledger ==> |c.data| == width)
    && |ledger| <= |history|
    && ledger == history[|history| - |ledger|..]
  }

  /** Under ordered input and window starts, the ledger holds exactly the
      admitted chunks a window starting at `s` covers. */
  ghost predicate Covered(windows: seq<Window>, history: seq<Chunk>, ledger: seq<Chunk>, s: int) {
    StartsSorted(windows) && Sorted(history) ==> ledger == Since(history, s)
  }

  /** Every output from position `from` on reports a window taken since
      `taken` windows had been, over `ledger` retracted to the start of each
      window taken since then up to and including its own. */
  ghost predicate RetractedOutputs(windows: seq<Window>, ledger: seq<Chunk>, taken: nat,
                                   ids: seq<nat>, groups: seq<seq<Chunk>>, from: nat)
    decreases |groups| - from
  {
    from < |groups| && from < |ids| ==>
      && taken <= ids[from] + 1 <= |windows|
      && groups[from] == RetractedTo(ledger, windows[taken..ids[from] + 1])
      && RetractedOutputs(windows, ledger, taken, ids, groups, from + 1)
  }

  /** Retracting to the windows from `i` up to `j` is retracting to window
      `i` first and then to the rest. */
  lemma RetractedFirst(ledger: seq<Chunk>, windows: seq<Window>, i: nat, j: nat)
    requires i < j <= |windows|
    ensures RetractedTo(ledger, windows[i..j]) == RetractedTo(DropBefore(ledger, windows[i].start), windows[i + 1..j])
  {
    assert windows[i..j][0] == windows[i] && windows[i..j][1..] == windows[i + 1..j];
  }

  /** The first `nextRange` of an advance emits, if anything, the ledger
      itself: the window before the first one taken since. */
  lemma RetractedOutputsStart(windows: seq<Window>, ledger: seq<Chunk>, taken: nat,
                              ids0: seq<nat>, groups0: seq<seq<Chunk>>, ids: seq<nat>, groups: seq<seq<Chunk>>)
    requires |ids0| == |groups0|
    requires (ids == ids0 && groups == groups0) ||
             (0 < taken <= |windows| && ids == ids0 + [taken - 1] && groups == groups0 + [ledger])
    ensures RetractedOutputs(windows, ledger, taken, ids, groups, |groups0|)
  {
    if groups != groups0 {
      assert windows[taken..taken] == [];
    }
  }

  /** Outputs over the ledger retracted to window `taken` first and then to
      the windows after it are outputs over the ledger retracted from
      `taken` on. */
  lemma {:induction false} RetractedOutputsShift(windows: seq<Window>, ledger: seq<Chunk>, taken: nat,
                                                  ids: seq<nat>, groups: seq<seq<Chunk>>, from: nat)
    requires taken < |windows|
    requires RetractedOutputs(windows, DropBefore(ledger, windows[taken].start), taken + 1, ids, groups, from)
    ensures RetractedOutputs(windows, ledger, taken, ids, groups, from)
    decreases |groups| - from
  {
    if from < |groups| && from < |ids| {
      RetractedFirst(ledger, windows, taken, ids[from] + 1);
      RetractedOutputsShift(windows, ledger, taken, ids, groups, from + 1);
    }
  }

  /** The outputs of an advance that took window `taken` first and then went
      on from the ledger retracted to its start. */
  lemma {:induction false} RetractedOutputsThen(windows: seq<Window>, ledger: seq<Chunk>, taken: nat, from: nat,
                                                 ids1: seq<nat>, groups1: seq<seq<Chunk>>, ids: seq<nat>, groups: seq<seq<Chunk>>)
    requires taken < |windows|
    requires RetractedOutputs(windows, ledger, taken, ids1, groups1, from)
    requires |ids1| == |groups1| && ids1 <= ids && groups1 <= groups && from <= |groups1|
    requires RetractedOutputs(windows, DropBefore(ledger, windows[taken].start), taken + 1, ids, groups, |groups1|)
    ensures RetractedOutputs(windows, ledger, taken, ids, groups, from)
    decreases |groups| - from
  {
    if from < |groups| && from < |ids| {
      if from < |groups1| {
        assert groups[from] == groups1[from] && ids[from] == ids1[from];
        RetractedOutputsThen(windows, ledger, taken, from + 1, ids1, groups1, ids, groups);
      } else {
        RetractedOutputsShift(windows, ledger, taken, ids, groups, from);
      }
    }
  }

  /** Windows `lo` up to but not including `hi` all end before `date`. */
  ghost predicate PassedOver(windows: seq<Window>, lo: nat, hi: int, date: int)
    decreases hi - lo
  {
    lo < hi ==> lo < |windows| && windows[lo].end < date && PassedOver(windows, lo + 1, hi, date)
  }

  /** `PassedOver` window by window. */
  lemma {:induction false} PassedOverAll(windows: seq<Window>, lo: nat, hi: int, date: int)
    requires PassedOver(windows, lo, hi, date)
    ensures lo < hi ==> hi <= |windows|
    ensures forall j :: lo <= j < hi ==> windows[j].end < date
    decreases hi - lo
  {
    if lo < hi {
      PassedOverAll(windows, lo + 1, hi, date);
    }
  }

  /** What advancing from window count `r0`, window `d0`, ledger `l0` and
      outputs `o0` (windows `i0`, ledgers `g0`) to window
      count `r`, ledger `l` and outputs `o` (windows `i`, ledgers `g`) did,
      for a chunk dated `date`: outputs were only appended; every window
      passed over ends before the chunk; the first output, when the ledger
      was not empty, is the emission of `d0` over it, and nothing was emitted
      when it was empty; the ledger is `l0` retracted to the start of every
      window taken, and every new output is its window's emission over `l0`
      retracted to the starts of the windows taken up to and including it. */
  ghost predicate Advanced(p: Params, windows: seq<Window>, date: int,
                           r0: nat, d0: Window, l0: seq<Chunk>, i0: seq<nat>, g0: seq<seq<Chunk>>, o0: seq<Chunk>,
                           r: nat, l: seq<Chunk>, i: seq<nat>, g: seq<seq<Chunk>>, o: seq<Chunk>) {
    && r0 <= r <= |windows|
    && i0 <= i && g0 <= g && o0 <= o
    && PassedOver(windows, r0, r - 1, date)
    && (l0 != [] ==> |o| > |o0| && o[|o0|] == Emission(p, d0, l0))
    && (l0 == [] ==> o == o0)
    && l == RetractedTo(l0, windows[r0..r])
    && RetractedOutputs(windows, l0, r0, i, g, |g0|)
  }

  /** One `nextRange` is an advance over at most one window: it emits `d0`
      over a non-empty ledger and takes window `r0` when there is one. */
  lemma AdvancedFirst(p: Params, windows: seq<Window>, date: int,
                      r0: nat, d0: Window, l0: seq<Chunk>, i0: seq<nat>, g0: seq<seq<Chunk>>, o0: seq<Chunk>,
                      r: nat, l: seq<Chunk>, i: seq<nat>, g: seq<seq<Chunk>>, o: seq<Chunk>)
    requires |i0| == |g0| && r0 <= |windows|
    requires l0 != [] ==> 0 < r0 && o == o0 + [Emission(p, d0, l0)] && i == i0 + [r0 - 1] && g == g0 + [l0]
    requires l0 == [] ==> o == o0 && i == i0 && g == g0
    requires r == (if r0 < |windows| then r0 + 1 else r0)
    requires l == (if r0 < |windows| then DropBefore(l0, windows[r0].start) else l0)
    ensures Advanced(p, windows, date, r0, d0, l0, i0, g0, o0, r, l, i, g, o)
  {
    RetractedOutputsStart(windows, l0, r0, i0, g0, i, g);
    if r0 < |windows| {
      RetractedFirst(l0, windows, r0, r);
      assert windows[r..r] == [];
    } else {
      assert windows[r0..r] == [];
    }
  }

  /** Advancing over window `r0` and then on from there is advancing from
      the start. */
  lemma AdvancedThen(p: Params, windows: seq<Window>, date: int,
                     r0: nat, d0: Window, l0: seq<Chunk>, i0: seq<nat>, g0: seq<seq<Chunk>>, o0: seq<Chunk>,
                     d1: Window, l1: seq<Chunk>, i1: seq<nat>, g1: seq<seq<Chunk>>, o1: seq<Chunk>,
                     r: nat, l: seq<Chunk>, i: seq<nat>, g: seq<seq<Chunk>>, o: seq<Chunk>)
    requires Advanced(p, windows, date, r0, d0, l0, i0, g0, o0, r0 + 1, l1, i1, g1, o1)
    requires Advanced(p, windows, date, r0 + 1, d1, l1, i1, g1, o1, r, l, i, g, o)
    requires windows[r0].end < date && l1 == DropBefore(l0, windows[r0].start) && |i1| == |g1|
    ensures Advanced(p, windows, date, r0, d0, l0, i0, g0, o0, r, l, i, g, o)
  {
    RetractedFirst(l0, windows, r0, r);
    RetractedOutputsThen(windows, l0, r0, |g0|, i1, g1, i, g);
    if l0 != [] {
      assert o[|o0|] == o1[|o0|];
    }
  }

  /** The state of one overlapping run: the variables the `nextRange`
      closure captures (the linked ledger `firstDC`..`lastDC` as a sequence),
      plus the window and output streams. */
  class SlidingRun {
    const p: Params
    const windows: seq<Window>

    var received: nat        // windows taken from the window source
    var dr: Window
    var drOk: bool
    var obsCnt: int
    var acc: array?<real>    // `sum` or `pCnt`
    var cnt: array?<int>
    var ledger: seq<Chunk>   // the retraction ledger, head first
    var out: seq<Chunk>

    ghost var history: seq<Chunk>        // every chunk admitted, in order
    ghost var ids: seq<nat>              // the window each output reports
    ghost var groups: seq<seq<Chunk>>    // the ledger each output finalised


    /** `obsCnt` is the ledger's length while windows last and zero after;
        every output so far is the emission of a distinct window among the
        first `closed` over the ledger it finalised; under ordered input and
        window starts the ledger holds exactly the admitted chunks the current
        window's start covers. */
    ghost predicate Inv(closed: nat)
      reads this
    {
      InvAt(closed, dr.start)
    }

    /** `Inv`, with the ledger measured against start `s` rather than the
        current window's: the state between taking a window and retracting
        the ledger to it. */
    ghost predicate InvAt(closed: nat, s: int)
      reads this
    {
      && received <= |windows|
      && (drOk ==> 0 < received && dr == windows[received - 1])
      && (drOk ==> obsCnt == |ledger|)
      && (!drOk ==> obsCnt == 0 && (received == 0 || received == |windows|))
      && (received == 0 ==> history == [])
      && Ledgered(acc == null, ledger, history, p.width)
      && Traced(p, windows, closed, ids, groups, out)
      && Drawn(groups, history)
      && (drOk ==> Covered(windows, history, ledger, s))
    }

    /** Between steps every window taken, except the current one, is closed. */
    ghost predicate Valid()
      reads this
    {
      (drOk ==> 0 < received) && Inv(if drOk then received - 1 else received)
    }

    /** Admission and advancing never read the ledger, so the run takes the
        windows and admits the chunks that the single pass `route` does. */
    ghost predicate Routed(route: Pass)
      reads this
    {
      route.received == received && route.drOk == drOk && route.history == history
    }

    /** Every admitted chunk is in some output's group or still on the live
        window's ledger. */
    ghost predicate Reports()
      reads this
    {
      forall c {:trigger Reported(groups, c)} :: c in history ==> Reported(groups, c) || (drOk && c in ledger)
    }

    constructor (p: Params, windows: seq<Window>)
      ensures Valid() && Totals(p.rule, acc, cnt, ledger, p.width)
      ensures this.p == p && this.windows == windows
      ensures received == 0 && !drOk && out == [] && ledger == [] && history == []
      ensures acc == null && cnt == null
    {
      this.p := p;
      this.windows := windows;
      received := 0;
      dr := Window(0, 0, 0);
      drOk := false;
      obsCnt := 0;
      acc := null;
      cnt := null;
      ledger := [];
      out := [];
      history := [];
      ids := [];
      groups := [];
    }

    /** The output chunk of the current window: its gated channels, dated by
        resampling the date of the ledger's last chunk (`lastDC`). */
    method Finalise() returns (outDC: Chunk)
      requires Valid() && Totals(p.rule, acc, cnt, ledger, p.width) && obsCnt > 0
      ensures outDC == Emission(p, dr, ledger)
    {
      var res := FinaliseChannels(dr.len, p.maxMissing, acc, cnt);
      FinalisedIsGated(p.rule, dr.len, p.maxMissing, ledger, res, acc[..], cnt[..]);
      var lastDC := ledger[|ledger| - 1];
      outDC := Chunk(p.resample(dr, lastDC.date), lastDC.offset, lastDC.length, res);
    }

    /** The first half of `nextRange`: the current window, whose ledger is not
        empty, is emitted. */
    method Emit()
      requires Valid() && Totals(p.rule, acc, cnt, ledger, p.width) && obsCnt > 0
      modifies this
      ensures Inv(received) && drOk
      ensures out == old(out) + [Emission(p, old(dr), old(ledger))]
      ensures groups == old(groups) + [old(ledger)] && ids == old(ids) + [old(received) - 1]
      ensures received == old(received) && dr == old(dr) && drOk == old(drOk) && obsCnt == old(obsCnt)
      ensures ledger == old(ledger) && history == old(history) && acc == old(acc) && cnt == old(cnt)
    {
      var outDC := Finalise();
      TracedEmit(p, windows, received - 1, ids, groups, out, received - 1, ledger);
      DrawnEmit(groups, history, ledger);
      out := out + [outDC];
      ids := ids + [received - 1];
      groups := groups + [ledger];
    }

    /** Evicts the ledger's head chunk: its contribution is retracted, the
        count drops by one, and the arrays go when the ledger empties. */
    method Evict()
      requires Ledgered(acc == null, ledger, history, p.width) && Totals(p.rule, acc, cnt, ledger, p.width)
      requires ledger != [] && obsCnt == |ledger|
      modifies this, acc, cnt
      ensures Ledgered(acc == null, ledger, history, p.width) && Totals(p.rule, acc, cnt, ledger, p.width)
      ensures ledger == old(ledger)[1..] && obsCnt == |ledger|
      ensures acc == (if ledger == [] then null else old(acc)) && cnt == old(cnt)
      ensures received == old(received) && dr == old(dr) && drOk == old(drOk)
      ensures out == old(out) && ids == old(ids) && groups == old(groups)
      ensures history == old(history)
    {
      assert ledger == [ledger[0]] + ledger[1..];
      RemoveChunk(p.rule, acc, cnt, ledger[0], ledger[1..]);
      obsCnt := obsCnt - 1;
      ghost var n := |history| - |ledger|;
      assert history[n..][1..] == history[n + 1..];
      ledger := ledger[1..];
      if ledger == [] {
        acc := null;
      }
    }

    /** The retraction loop of `nextRange`: head chunks dated before the new
        window's start are evicted, up to the first that is not. */
    method Retract()
      requires Ledgered(acc == null, ledger, history, p.width) && Totals(p.rule, acc, cnt, ledger, p.width) && obsCnt == |ledger|
      modifies this, acc, cnt
      ensures Ledgered(acc == null, ledger, history, p.width) && Totals(p.rule, acc, cnt, ledger, p.width) && obsCnt == |ledger|
      ensures ledger == DropBefore(old(ledger), dr.start)
      ensures received == old(received) && dr == old(dr) && drOk == old(drOk)
      ensures out == old(out) && ids == old(ids) && groups == old(groups)
      ensures history == old(history) && cnt == old(cnt) && (acc == null || acc == old(acc))
    {
      while ledger != [] && ledger[0].date < dr.start
        invariant Ledgered(acc == null, ledger, history, p.width) && Totals(p.rule, acc, cnt, ledger, p.width) && obsCnt == |ledger|
        invariant DropBefore(ledger, dr.start) == DropBefore(old(ledger), dr.start)
        invariant received == old(received) && dr == old(dr) && drOk == old(drOk)
        invariant out == old(out) && ids == old(ids) && groups == old(groups)
        invariant history == old(history)
        invariant acc == null || acc == old(acc)
        invariant cnt == old(cnt)
        decreases |ledger|
      {
        Evict();
      }
    }

    /** The window step of `nextRange`: the next window is taken, or, when
        the windows have run out, `obsCnt` is cleared. The ledger still
        holds what the previous window's start covers. */
    method Take() returns (ghost s0: int)
      requires Inv(received)
      modifies this
      ensures drOk <==> old(received) < |windows|
      ensures received == (if drOk then old(received) + 1 else old(received))
      ensures drOk ==> dr == windows[old(received)] && 0 < received && InvAt(received - 1, s0) && s0 <= dr.start
      ensures !drOk ==> Valid()
      ensures ledger == old(ledger) && acc == old(acc) && cnt == old(cnt) && history == old(history)
      ensures out == old(out) && ids == old(ids) && groups == old(groups)
    {
      s0 := dr.start;
      if received < |windows| {
        if !drOk {
          assert history == [] && ledger == [];
        }
        var next := windows[received];
        if !drOk || next.start < dr.start {
          // A start out of order leaves nothing to cover.
          assert drOk ==> !StartsSorted(windows) by {
            if drOk {
              assert windows[received - 1].start > windows[received].start;
            }
          }
          s0 := next.start;
        }
        assert Covered(windows, history, ledger, s0);
        dr := next;
        received := received + 1;
        drOk := true;
      } else {
        drOk := false;
        obsCnt := 0;
      }
    }

    /** The retraction step of `nextRange`: the ledger drops the head chunks
        the new window's start no longer covers. */
    method Slide(ghost s0: int)
      requires drOk && 0 < received && InvAt(received - 1, s0) && s0 <= dr.start
      requires Totals(p.rule, acc, cnt, ledger, p.width)
      modifies this, acc, cnt
      ensures Valid() && Totals(p.rule, acc, cnt, ledger, p.width)
      ensures ledger == DropBefore(old(ledger), dr.start)
      ensures received == old(received) && dr == old(dr) && drOk
      ensures out == old(out) && ids == old(ids) && groups == old(groups)
      ensures history == old(history) && cnt == old(cnt) && (acc == null || acc == old(acc))
    {
      CoveredSlides(windows, history, ledger, s0, dr.start);
      Retract();
    }

    /** The second half of `nextRange`: the next window is taken and the
        ledger retracted to its start; when the windows have run out, only
        `obsCnt` is cleared. */
    method Fetch()
      requires Inv(received) && Totals(p.rule, acc, cnt, ledger, p.width)
      modifies this, acc, cnt
      ensures Valid() && Totals(p.rule, acc, cnt, ledger, p.width)
      ensures drOk <==> old(received) < |windows|
      ensures received == (if drOk then old(received) + 1 else old(received))
      ensures drOk ==> dr == windows[old(received)] && ledger == DropBefore(old(ledger), dr.start)
      ensures !drOk ==> ledger == old(ledger) && acc == old(acc)
      ensures out == old(out) && ids == old(ids) && groups == old(groups)
      ensures history == old(history) && cnt == old(cnt) && (acc == null || acc == old(acc))
    {
      ghost var s0 := Take();
      if drOk {
        Slide(s0);
      }
    }

    /** `nextRange`: emits the current window when its ledger is not empty,
        takes the next window and retracts the ledger to its start. */
    method NextRange(ghost s: Pass) returns (ghost route: Pass)
      requires Valid() && Totals(p.rule, acc, cnt, ledger, p.width) && Routed(s) && Reports()
      modifies this, acc, cnt
      ensures Valid() && Totals(p.rule, acc, cnt, ledger, p.width) && Routed(route)
      ensures forall c {:trigger Reported(groups, c)} :: c in history ==> Reported(groups, c)
      ensures old(obsCnt) > 0 ==>
                out == old(out) + [Emission(p, old(dr), old(ledger))] && groups == old(groups) + [old(ledger)] &&
                ids == old(ids) + [old(received) - 1]
      ensures old(obsCnt) == 0 ==> out == old(out) && groups == old(groups) && ids == old(ids)
      ensures drOk <==> old(received) < |windows|
      ensures received == (if drOk then old(received) + 1 else old(received))
      ensures drOk ==> dr == windows[old(received)] && ledger == DropBefore(old(ledger), dr.start)
      ensures !drOk ==> ledger == old(ledger)
      ensures history == old(history) && cnt == old(cnt) && (acc == null || acc == old(acc))
      ensures route == NextRangeOf(windows, s)
    {
      if obsCnt > 0 {
        Emit();
      } else {
        IdsBelowWiden(ids, if drOk then received - 1 else received, received, |windows|);
      }
      // What the emission finalised is reported now; the rest was already.
      forall c | c in history
        ensures Reported(groups, c)
      {
        if Reported(old(groups), c) {
          var k :| 0 <= k < |old(groups)| && c in old(groups)[k];
          assert groups[k] == old(groups)[k];
        } else {
          assert c in groups[|groups| - 1];
        }
      }
      Fetch();
      route := NextRangeOf(windows, s);
    }

    /** Adds the gains of `c` to the running arrays, creating them when the
        ledger is empty. */
    method Accrue(c: Chunk)
      requires Totals(p.rule, acc, cnt, ledger, p.width) && (acc == null <==> ledger == []) && |c.data| == p.width
      modifies this, acc, cnt
      ensures Totals(p.rule, acc, cnt, ledger + [c], p.width) && acc != null
      ensures old(acc) != null ==> acc == old(acc) && cnt == old(cnt)
      ensures old(acc) == null ==> fresh(acc) && fresh(cnt)
      ensures received == old(received) && dr == old(dr) && drOk == old(drOk) && obsCnt == old(obsCnt)
      ensures ledger == old(ledger) && history == old(history)
      ensures out == old(out) && ids == old(ids) && groups == old(groups)
    {
      if acc == null {
        acc, cnt := NewTotals(p.rule, |c.data|);
      }
      AddChunk(p.rule, acc, cnt, c, ledger);
    }

    /** Admits `c` into the current window: its gains are added, it is
        appended to the ledger's tail and counted. */
    method Admit(c: Chunk, ghost s: Pass) returns (ghost route: Pass)
      requires Valid() && Totals(p.rule, acc, cnt, ledger, p.width) && Routed(s) && Reports()
      requires drOk && InWindow(dr, c.date) && |c.data| == p.width
      modifies this, acc, cnt
      ensures Valid() && Totals(p.rule, acc, cnt, ledger, p.width) && Routed(route) && Reports()
      ensures route == s.(admitted := s.admitted + [c], history := s.history + [c])
      ensures ledger == old(ledger) + [c] && history == old(history) + [c] && obsCnt == old(obsCnt) + 1
      ensures old(acc) != null ==> acc == old(acc) && cnt == old(cnt)
      ensures old(acc) == null ==> fresh(acc) && fresh(cnt)
      ensures received == old(received) && dr == old(dr) && drOk == old(drOk)
      ensures out == old(out) && ids == old(ids) && groups == old(groups)
    {
      Accrue(c);
      obsCnt := obsCnt + 1;
      LedgerGrows(windows, history, ledger, c, dr.start);
      ledger := ledger + [c];
      history := history + [c];
      route := s.(admitted := s.admitted + [c], history := s.history + [c]);
    }

    /** The first window `Advance` takes: one `nextRange`, seen as an
        advance over at most one window. */
    method TakeNext(c: Chunk, ghost s: Pass) returns (ghost route: Pass)
      requires Valid() && Totals(p.rule, acc, cnt, ledger, p.width) && Routed(s) && Reports() && drOk
      modifies this, acc, cnt
      ensures Valid() && Totals(p.rule, acc, cnt, ledger, p.width) && Routed(route)
      ensures forall x {:trigger Reported(groups, x)} :: x in history ==> Reported(groups, x)
      ensures drOk <==> old(received) < |windows|
      ensures received == (if drOk then old(received) + 1 else old(received))
      ensures drOk ==> ledger == DropBefore(old(ledger), windows[old(received)].start)
      ensures Advanced(p, windows, c.date, old(received), old(dr), old(ledger), old(ids), old(groups), old(out),
                       received, ledger, ids, groups, out)
      ensures history == old(history) && cnt == old(cnt) && (acc == null || acc == old(acc))
      ensures route == NextRangeOf(windows, s)
      ensures Before(windows, route, c.date) <==> drOk && dr.end < c.date
    {
      ghost var r0, d0, l0, i0, g0, o0 := received, dr, ledger, ids, groups, out;
      assert obsCnt == |ledger| && 0 < received;
      route := NextRange(s);
      AdvancedFirst(p, windows, c.date, r0, d0, l0, i0, g0, o0, received, ledger, ids, groups, out);
    }

    /** The windows `Advance` takes: the next one, and then, one recursive
        call per window, more while the current one ends before the chunk.
        Each window is emitted over the ledger as retracted to the starts of
        the windows taken since, and the ledger left behind is retracted to
        all of them. */
    method TakeUntil(c: Chunk, ghost s: Pass) returns (stop: bool, ghost route: Pass)
      requires Valid() && Totals(p.rule, acc, cnt, ledger, p.width) && Routed(s) && Reports() && drOk
      modifies this, acc, cnt
      ensures Valid() && Totals(p.rule, acc, cnt, ledger, p.width) && Routed(route)
      ensures forall x {:trigger Reported(groups, x)} :: x in history ==> Reported(groups, x)
      ensures stop <==> !drOk
      ensures !stop ==> c.date <= dr.end
      ensures old(received) < received || stop
      ensures Advanced(p, windows, c.date, old(received), old(dr), old(ledger), old(ids), old(groups), old(out),
                       received, ledger, ids, groups, out)
      ensures history == old(history) && cnt == old(cnt) && (acc == null || acc == old(acc))
      ensures route == AdvanceOf(windows, s, c.date)
      decreases |windows| - received
    {
      ghost var r0, d0, l0, i0, g0, o0 := received, dr, ledger, ids, groups, out;
      route := TakeNext(c, s);
      AdvanceOfTurn(windows, s, route, c.date);
      if drOk && dr.end < c.date {
        ghost var d1, l1, i1, g1, o1 := dr, ledger, ids, groups, out;
        assert received == r0 + 1 && windows[r0].end < c.date && l1 == DropBefore(l0, windows[r0].start) && |i1| == |g1|;
        stop, route := TakeUntil(c, route);
        AdvancedThen(p, windows, c.date, r0, d0, l0, i0, g0, o0, d1, l1, i1, g1, o1,
                     received, ledger, ids, groups, out);
      } else {
        stop := !drOk;
      }
    }

    /** A chunk at or past the window's end closes it: the window is
        finalised (emitted when its ledger is not empty) and windows are taken
        until they run out (`stop`) or one no longer ends before the chunk. */
    method Advance(c: Chunk, ghost s: Pass) returns (stop: bool, ghost route: Pass)
      requires Valid() && Totals(p.rule, acc, cnt, ledger, p.width) && Routed(s) && Reports()
      requires drOk && dr.end <= c.date
      modifies this, acc, cnt
      ensures Valid() && Totals(p.rule, acc, cnt, ledger, p.width) && Routed(route)
      ensures forall x {:trigger Reported(groups, x)} :: x in history ==> Reported(groups, x)
      ensures stop <==> !drOk
      ensures !stop ==> c.date <= dr.end
      ensures old(received) < received || stop
      ensures forall j :: old(received) <= j < received - 1 ==> windows[j].end < c.date
      ensures Advanced(p, windows, c.date, old(received), old(dr), old(ledger), old(ids), old(groups), old(out),
                       received, ledger, ids, groups, out)
      ensures history == old(history) && cnt == old(cnt) && (acc == null || acc == old(acc))
      ensures route == AdvanceOf(windows, s, c.date)
    {
      stop, route := TakeUntil(c, s);
      PassedOverAll(windows, old(received), received - 1, c.date);
    }

    /** One pass of the data loop over chunk `c`: a chunk dated before the
        window is skipped with nothing changed; one inside it joins the
        ledger; one at or past its end advances the windows, after joining
        the ledger when it lies on the end. */
    /** A chunk at or past the window's end: it joins the ledger when it lies
        on the end, and then the windows advance. */
    method Close(c: Chunk, ghost s: Pass) returns (stop: bool, ghost route: Pass)
      requires Valid() && Totals(p.rule, acc, cnt, ledger, p.width) && Routed(s) && Reports()
      requires drOk && dr.start <= c.date && dr.end <= c.date && |c.data| == p.width
      modifies this, acc, cnt
      ensures Valid() && Totals(p.rule, acc, cnt, ledger, p.width) && Routed(route) && Reports()
      ensures stop <==> !drOk
      ensures forall j :: old(received) <= j < received - 1 ==> windows[j].end < c.date
      ensures Advanced(p, windows, c.date, old(received), old(dr),
                       if c.date == old(dr).end then old(ledger) + [c] else old(ledger),
                       old(ids), old(groups), old(out), received, ledger, ids, groups, out)
      ensures history == (if c.date == old(dr).end then old(history) + [c] else old(history))
      ensures route == StepOf(windows, s, c)
      ensures acc == null || acc == old(acc) || fresh(acc)
      ensures cnt == old(cnt) || fresh(cnt)
    {
      assert dr == windows[received - 1];
      ghost var a := s;
      if c.date == dr.end {
        a := Admit(c, s);
      }
      assert StepOf(windows, s, c) == AdvanceOf(windows, a, c.date);
      assert received == old(received) && dr == old(dr) && ids == old(ids) && groups == old(groups) && out == old(out);
      assert ledger == if c.date == dr.end then old(ledger) + [c] else old(ledger);
      stop, route := Advance(c, a);
    }

    method Step(c: Chunk, ghost s: Pass) returns (stop: bool, ghost route: Pass)
      requires Valid() && Totals(p.rule, acc, cnt, ledger, p.width) && Routed(s) && Reports()
      requires drOk && |c.data| == p.width
      modifies this, acc, cnt
      ensures Valid() && Totals(p.rule, acc, cnt, ledger, p.width) && Routed(route) && Reports()
      ensures stop <==> !drOk
      ensures forall j :: old(received) <= j < received - 1 ==> windows[j].end < c.date
      ensures c.date < old(dr).start ==>
                !stop && dr == old(dr) && received == old(received) && ledger == old(ledger) &&
                obsCnt == old(obsCnt) && out == old(out) && acc == old(acc) && cnt == old(cnt)
      ensures old(dr).start <= c.date < old(dr).end ==>
                !stop && dr == old(dr) && ledger == old(ledger) + [c] && obsCnt == old(obsCnt) + 1 && out == old(out)
      ensures old(dr).start <= c.date && old(dr).end <= c.date ==>
                Advanced(p, windows, c.date, old(received), old(dr),
                         if c.date == old(dr).end then old(ledger) + [c] else old(ledger),
                         old(ids), old(groups), old(out), received, ledger, ids, groups, out)
      ensures history == (if InWindow(old(dr), c.date) then old(history) + [c] else old(history))
      ensures route == StepOf(windows, s, c)
      ensures acc == null || acc == old(acc) || fresh(acc)
      ensures cnt == old(cnt) || fresh(cnt)
    {
      assert dr == windows[received - 1];
      stop, route := false, s;
      if c.date < dr.start {
        assert StepOf(windows, s, c) == s;
      } else if c.date < dr.end {
        route := Admit(c, s);
        assert StepOf(windows, s, c) == route;
      } else {
        stop, route := Close(c, s);
      }
    }

    /** The labelled data loop: chunks are read and stepped over until the
        input or the windows run out; it stops after reading chunk `i - 1`.
        What it admits is the single pass's, read from `input` and, for an
        ordered input, in order. */
    method DataLoop(input: seq<Chunk>, ghost s: Pass) returns (i: nat, ghost route: Pass)
      requires Valid() && Totals(p.rule, acc, cnt, ledger, p.width) && Routed(s) && Reports()
      requires history == [] && forall c :: c in input ==> |c.data| == p.width
      modifies this, acc, cnt
      ensures Valid() && Totals(p.rule, acc, cnt, ledger, p.width) && Routed(route) && Reports()
      ensures i <= |input| && (i < |input| ==> !drOk)
      ensures route == LoopOf(windows, s, input)
      ensures Sorted(input) ==> Sorted(history)
      ensures acc == null || acc == old(acc) || fresh(acc)
      ensures cnt == null || cnt == old(cnt) || fresh(cnt)
    {
      route := s;
      i := 0;
      var stop := !drOk;
      while i < |input| && !stop
        invariant 0 <= i <= |input|
        invariant Valid() && Totals(p.rule, acc, cnt, ledger, p.width) && (drOk <==> !stop)
        invariant Routed(route) && Reports()
        invariant LoopOf(windows, route, input[i..]) == LoopOf(windows, s, input)
        invariant acc == null || acc == old(acc) || fresh(acc)
        invariant cnt == null || cnt == old(cnt) || fresh(cnt)
        invariant forall c :: c in history ==> c in input[..i]
        invariant Sorted(input) ==> Sorted(history)
        decreases |input| - i
      {
        var inDC := input[i];
        assert input[i..][0] == inDC && input[i..][1..] == input[i + 1..];
        ReadInOrder(input, i, history);
        i := i + 1;
        stop, route := Step(inDC, route);
      }
      assert i == |input| ==> input[i..] == [];
    }

    /** The whole run over the chunk stream `input`: the first window is taken,
        the data loop skips, admits and advances, the last window is flushed,
        and the rest of the input is read and discarded. The windows taken and
        the chunks admitted are the single pass's, and every admitted chunk
        ends up in some output's ledger. */
    method Run(input: seq<Chunk>)
      requires Valid() && Totals(p.rule, acc, cnt, ledger, p.width)
      requires received == 0 && !drOk && out == [] && ledger == [] && history == [] && acc == null && cnt == null
      requires |windows| > 0
      requires forall c :: c in input ==> |c.data| == p.width
      modifies this
      ensures Traced(p, windows, |windows|, ids, groups, out)
      ensures forall k, c :: 0 <= k < |groups| && c in groups[k] ==> c in input
      ensures forall c :: c in history ==> c in input
      ensures Sorted(input) ==> Sorted(history)
      ensures history == RunOf(windows, input).history
      ensures forall c {:trigger Reported(groups, c)} :: c in history ==> Reported(groups, c)
    {
      ghost var route := NextRange(Start);
      var i;
      i, route := DataLoop(input, route);
      route := NextRange(route);
      // The rest of the input is read and discarded.
      while i < |input|
        invariant i <= |input|
      {
        i := i + 1;
      }
      RunAccounts(windows, input);
      IdsBelowWiden(ids, if drOk then received - 1 else received, |windows|, |windows|);
    }
  }
}
