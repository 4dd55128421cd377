/** The routing of the single-pass synchroniser (`Sum`, `Threshold`,
    `None`) as a function of the window and chunk streams alone: which chunks
    each window admits, when a window is emitted, and when the accumulator is
    reset. The run objects of `Windowed` and `NoneReduce` are proved to follow
    it step by step; the lemmas here say what it means for the outputs. */
module Schedule {
  import opened Grid

  /** Where a single pass stands: the windows taken so far, whether the
      current one is live, the start of the last emitted window, the chunks
      accumulated since the last reset, every chunk ever admitted, and the
      window index and chunk group of every output so far. */
  datatype Pass = Pass(received: nat, drOk: bool, lastStart: int, admitted: seq<Chunk>,
                       history: seq<Chunk>, ids: seq<nat>, groups: seq<seq<Chunk>>)

  /** Before the first window is taken. The last emitted start is the zero
      date, as in the source. */
  const Start := Pass(0, false, 0, [], [], [], [])

  /** `nextRange`: the current window is emitted when it admitted anything,
      the next window is taken, and the accumulator is reset unless a window
      was taken and it starts where the last emitted one did. */
  function NextRangeOf(ws: seq<Window>, s: Pass): (r: Pass)
    ensures r.drOk <==> s.received < |ws|
    ensures r.received == (if r.drOk then s.received + 1 else s.received)
    ensures r.history == s.history && s.ids <= r.ids && s.groups <= r.groups
    ensures s.admitted != [] && 0 < s.received <= |ws| ==>
              r.ids == s.ids + [s.received - 1] && r.groups == s.groups + [s.admitted] &&
              r.lastStart == ws[s.received - 1].start
    ensures !(s.admitted != [] && 0 < s.received <= |ws|) ==>
              r.ids == s.ids && r.groups == s.groups && r.lastStart == s.lastStart
    ensures r.admitted == (if r.drOk && ws[s.received].start == r.lastStart then s.admitted else [])
  {
    var e := if s.admitted != [] && 0 < s.received <= |ws|
             then s.(ids := s.ids + [s.received - 1], groups := s.groups + [s.admitted],
                     lastStart := ws[s.received - 1].start)
             else s;
    var ok := e.received < |ws|;
    var keep := ok && ws[e.received].start == e.lastStart;
    e.(received := if ok then e.received + 1 else e.received, drOk := ok,
       admitted := if keep then e.admitted else [])
  }

  /** The inner loop of the data loop, after a chunk dated `date` reached the
      current window's end: windows are taken until they run out or one no
      longer ends before `date`. */
  function AdvanceOf(ws: seq<Window>, s: Pass, date: int): (r: Pass)
    decreases |ws| - s.received
  {
    var t := NextRangeOf(ws, s);
    if t.drOk && ws[t.received - 1].end < date then AdvanceOf(ws, t, date) else t
  }

  /** One turn of the advancing loop, seen from its state `s` before the
      turn and `t` after it: when the window just taken still ends before
      `date`, advancing goes on from `t`, and otherwise it stops at `t`. */
  lemma AdvanceOfTurn(ws: seq<Window>, s: Pass, t: Pass, date: int)
    requires t == NextRangeOf(ws, s)
    ensures Before(ws, t, date) ==> AdvanceOf(ws, s, date) == AdvanceOf(ws, t, date)
    ensures !Before(ws, t, date) ==> AdvanceOf(ws, s, date) == t
  {
  }

  /** Pass `s` has a live window that ends before `date`. */
  ghost predicate Before(ws: seq<Window>, s: Pass, date: int) {
    s.drOk && 0 < s.received <= |ws| && ws[s.received - 1].end < date
  }

  /** One pass of the data loop over chunk `c`: skipped when dated before the
      current window, admitted when inside it, and advancing the windows when
      at or past its end. */
  function StepOf(ws: seq<Window>, s: Pass, c: Chunk): (r: Pass)
  {
    if !(s.drOk && 0 < s.received <= |ws|) then s
    else
      var w := ws[s.received - 1];
      if c.date < w.start then s
      else
        var a := if c.date <= w.end then s.(admitted := s.admitted + [c], history := s.history + [c]) else s;
        if c.date < w.end then a else AdvanceOf(ws, a, c.date)
  }

  /** The data loop over the chunks of `input`, until they or the windows
      run out. */
  function LoopOf(ws: seq<Window>, s: Pass, input: seq<Chunk>): (r: Pass)
    decreases |input|
  {
    if input == [] || !s.drOk then s else LoopOf(ws, StepOf(ws, s, input[0]), input[1..])
  }

  /** The whole single pass: the first window is taken, the data loop runs,
      and the last window is flushed. */
  function RunOf(ws: seq<Window>, input: seq<Chunk>): Pass {
    NextRangeOf(ws, LoopOf(ws, NextRangeOf(ws, Start), input))
  }

  /** Chunk `c` is among the chunks of some output. */
  ghost predicate Reported(groups: seq<seq<Chunk>>, c: Chunk) {
    exists k :: 0 <= k < |groups| && c in groups[k]
  }

  /** A pass that can be reached: a live window has been taken, and chunks
      are accumulated only under one. */
  ghost predicate Sane(ws: seq<Window>, s: Pass) {
    && s.received <= |ws|
    && (s.drOk ==> 0 < s.received)
    && (s.admitted != [] ==> s.drOk)
  }

  /** What advancing does: it takes at least one window, skips only windows
      ending before `date`, stops at the first that does not unless the
      windows run out, reports the accumulated chunks (once for the window
      they were accumulated under, and again for each following window with
      the same start), and admits nothing. */
  lemma {:induction false} AdvanceOfFacts(ws: seq<Window>, s: Pass, date: int)
    requires Sane(ws, s)
    ensures var r := AdvanceOf(ws, s, date);
            && Sane(ws, r)
            && s.received <= r.received && (r.drOk ==> s.received < r.received)
            && (r.drOk ==> date <= ws[r.received - 1].end)
            && (forall j :: s.received <= j < r.received - 1 ==> ws[j].end < date)
            && s.ids <= r.ids && s.groups <= r.groups && r.history == s.history
            && (forall k :: |s.groups| <= k < |r.groups| ==> r.groups[k] == s.admitted)
            && (r.admitted == s.admitted || r.admitted == [])
            && (s.admitted == [] ==> r.admitted == [] && r.groups == s.groups && r.ids == s.ids)
            && (s.admitted != [] ==> |s.groups| < |r.groups| && |s.ids| < |r.ids| && r.ids[|s.ids|] == s.received - 1)
    decreases |ws| - s.received
  {
    var t := NextRangeOf(ws, s);
    if t.drOk && ws[t.received - 1].end < date {
      AdvanceOfFacts(ws, t, date);
      var r := AdvanceOf(ws, t, date);
      assert forall k :: |s.groups| <= k < |t.groups| ==> t.groups[k] == s.admitted;
      if s.admitted != [] {
        assert r.ids[|s.ids|] == t.ids[|s.ids|];
      }
    } else {
      assert AdvanceOf(ws, s, date) == t;
    }
  }

  /** A pass that can be reached, in which every chunk admitted so far is
      either still accumulated or already reported, while every reported or
      accumulated chunk was admitted. */
  ghost predicate Accounted(ws: seq<Window>, s: Pass) {
    && Sane(ws, s)
    && (forall c :: c in s.history ==> c in s.admitted || Reported(s.groups, c))
    && (forall c :: c in s.admitted ==> c in s.history)
    && (forall k, c :: 0 <= k < |s.groups| && c in s.groups[k] ==> c in s.history)
  }

  /** `nextRange` loses nothing: what it stops accumulating it has just
      reported, so afterwards every accumulated chunk is reported too. */
  lemma NextRangeAccounts(ws: seq<Window>, s: Pass)
    requires Accounted(ws, s)
    ensures Accounted(ws, NextRangeOf(ws, s))
    ensures forall c :: c in NextRangeOf(ws, s).admitted ==> Reported(NextRangeOf(ws, s).groups, c)
  {
    var r := NextRangeOf(ws, s);
    forall c | c in s.history
      ensures c in r.admitted || Reported(r.groups, c)
    {
      if c in s.admitted {
        assert c in r.groups[|r.groups| - 1];
      } else {
        var k :| 0 <= k < |s.groups| && c in s.groups[k];
        assert r.groups[k] == s.groups[k];
      }
    }
    forall c | c in r.admitted
      ensures Reported(r.groups, c)
    {
      assert c in r.groups[|r.groups| - 1];
    }
    forall k, c | 0 <= k < |r.groups| && c in r.groups[k]
      ensures c in r.history
    {
      if k < |s.groups| {
        assert r.groups[k] == s.groups[k];
      }
    }
  }

  /** Advancing over several windows loses nothing either. */
  lemma {:induction false} AdvanceAccounts(ws: seq<Window>, s: Pass, date: int)
    requires Accounted(ws, s)
    ensures Accounted(ws, AdvanceOf(ws, s, date))
    decreases |ws| - s.received
  {
    NextRangeAccounts(ws, s);
    var t := NextRangeOf(ws, s);
    if t.drOk && ws[t.received - 1].end < date {
      AdvanceAccounts(ws, t, date);
    }
  }

  /** A step admits a chunk together with its record, and loses nothing. */
  lemma StepAccounts(ws: seq<Window>, s: Pass, c: Chunk)
    requires Accounted(ws, s)
    ensures Accounted(ws, StepOf(ws, s, c))
    ensures forall x :: x in StepOf(ws, s, c).history ==> x in s.history || x == c
  {
    if s.drOk && 0 < s.received <= |ws| {
      var w := ws[s.received - 1];
      if w.start <= c.date {
        var a := if c.date <= w.end then s.(admitted := s.admitted + [c], history := s.history + [c]) else s;
        assert Accounted(ws, a);
        if w.end <= c.date {
          AdvanceAccounts(ws, a, c.date);
          AdvanceHistory(ws, a, c.date);
        }
      }
    }
  }

  /** Advancing admits nothing. */
  lemma {:induction false} AdvanceHistory(ws: seq<Window>, s: Pass, date: int)
    ensures AdvanceOf(ws, s, date).history == s.history
    decreases |ws| - s.received
  {
    var t := NextRangeOf(ws, s);
    if t.drOk && ws[t.received - 1].end < date {
      AdvanceHistory(ws, t, date);
    }
  }

  /** The data loop loses nothing, and admits only chunks it read. */
  lemma {:induction false} LoopAccounts(ws: seq<Window>, s: Pass, input: seq<Chunk>)
    requires Accounted(ws, s)
    ensures Accounted(ws, LoopOf(ws, s, input))
    ensures forall x :: x in LoopOf(ws, s, input).history ==> x in s.history || x in input
    decreases |input|
  {
    if input != [] && s.drOk {
      StepAccounts(ws, s, input[0]);
      LoopAccounts(ws, StepOf(ws, s, input[0]), input[1..]);
      assert forall x :: x in input[1..] ==> x in input;
    }
  }

  /** What the outputs of a single pass account for: every chunk the pass
      admits is reported by some output, every chunk an output reports was
      admitted, and only chunks of the input are admitted. */
  lemma RunAccounts(ws: seq<Window>, input: seq<Chunk>)
    ensures var r := RunOf(ws, input);
            (forall c :: c in r.history ==> Reported(r.groups, c)) &&
            (forall k, c :: 0 <= k < |r.groups| && c in r.groups[k] ==> c in r.history) &&
            (forall c :: c in r.history ==> c in input)
  {
    var s0 := NextRangeOf(ws, Start);
    NextRangeAccounts(ws, Start);
    LoopAccounts(ws, s0, input);
    var s1 := LoopOf(ws, s0, input);
    NextRangeAccounts(ws, s1);
    var r := NextRangeOf(ws, s1);
    forall c | c in r.history
      ensures Reported(r.groups, c)
    {
      if c in s1.admitted {
        assert c in r.groups[|r.groups| - 1];
      } else {
        var k :| 0 <= k < |s1.groups| && c in s1.groups[k];
        assert r.groups[k] == s1.groups[k];
      }
    }
  }

  /** A single window over chunks that all lie in it, only the last one
      possibly on its end, gives one output, of window 0, over all of them. */
  lemma RunOfSingleWindow(w: Window, input: seq<Chunk>)
    requires input != []
    requires forall k :: 0 <= k < |input| ==> InWindow(w, input[k].date)
    requires forall k :: 0 <= k < |input| - 1 ==> input[k].date < w.end
    ensures RunOf([w], input).ids == [0] && RunOf([w], input).groups == [input]
  {
    var s0 := NextRangeOf([w], Start);
    assert s0.received == 1 && s0.drOk && s0.ids == [] && s0.groups == [] && s0.admitted == [];
    LoopOfSingleWindow(w, s0, input);
    assert s0.admitted + input == input;
  }

  lemma {:induction false} LoopOfSingleWindow(w: Window, s: Pass, input: seq<Chunk>)
    requires s.received == 1 && s.drOk && s.ids == [] && s.groups == []
    requires input != []
    requires forall k :: 0 <= k < |input| ==> InWindow(w, input[k].date)
    requires forall k :: 0 <= k < |input| - 1 ==> input[k].date < w.end
    ensures var r := NextRangeOf([w], LoopOf([w], s, input));
            r.ids == [0] && r.groups == [s.admitted + input]
    decreases |input|
  {
    var t := StepOf([w], s, input[0]);
    if |input| == 1 {
      assert input == [input[0]];
      assert LoopOf([w], s, input) == LoopOf([w], t, []);
    } else {
      assert t == s.(admitted := s.admitted + [input[0]], history := s.history + [input[0]]);
      LoopOfSingleWindow(w, t, input[1..]);
      assert s.admitted + [input[0]] + input[1..] == s.admitted + input;
    }
  }

  /** A chunk with no data, dated `d`. */
  function Day(d: int): Chunk {
    Chunk(d, 0, 0, [])
  }

  /** As written, a chunk dated past the current window's end closes that
      window and is then dropped: it is never offered to the window it
      advanced to, even when it lies inside that window. */
  lemma StepOfPastEnd(ws: seq<Window>, s: Pass, c: Chunk)
    requires s.drOk && 0 < s.received <= |ws| && ws[s.received - 1].end < c.date
    ensures StepOf(ws, s, c).history == s.history
  {
    AdvanceHistory(ws, s, c.date);
  }

  /** The dropped chunk, over windows [1, 4] and [5, 8] and chunks dated 1, 2,
      3 and 6: the chunk dated 6 lies in the second window, which therefore
      should report it, but no output does. */
  lemma PastEndChunkDropped()
    ensures var ws := [Window(1, 4, 4), Window(5, 8, 4)];
            var input := [Day(1), Day(2), Day(3), Day(6)];
            var r := RunOf(ws, input);
            InWindow(ws[1], input[3].date) && r.groups == [input[..3]] && !Reported(r.groups, input[3])
  {
    var ws := [Window(1, 4, 4), Window(5, 8, 4)];
    var input := [Day(1), Day(2), Day(3), Day(6)];
    var s0 := NextRangeOf(ws, Start);
    assert s0 == Pass(1, true, 0, [], [], [], []);
    var s1 := StepOf(ws, s0, Day(1));
    assert s1 == Pass(1, true, 0, [Day(1)], [Day(1)], [], []);
    var s2 := StepOf(ws, s1, Day(2));
    assert s2 == Pass(1, true, 0, [Day(1), Day(2)], [Day(1), Day(2)], [], []);
    var s3 := StepOf(ws, s2, Day(3));
    assert s3 == Pass(1, true, 0, input[..3], input[..3], [], []);
    var t := NextRangeOf(ws, s3);
    assert t == Pass(2, true, 1, [], input[..3], [0], [input[..3]]);
    var s4 := StepOf(ws, s3, Day(6));
    assert s4 == t;
    assert LoopOf(ws, s0, input) == LoopOf(ws, s4, []) by {
      assert input[1..][1..][1..][1..] == [];
    }
    assert RunOf(ws, input) == NextRangeOf(ws, t);
  }

  /** The evidently intended step: a chunk past the window's end first
      advances the windows, and is then handled as if it had arrived under
      the window it advanced to. */
  function StepIntended(ws: seq<Window>, s: Pass, c: Chunk): Pass {
    if s.drOk && 0 < s.received <= |ws| && ws[s.received - 1].end < c.date
    then StepOf(ws, AdvanceOf(ws, s, c.date), c)
    else StepOf(ws, s, c)
  }

  /** With the intended step, a chunk is admitted whenever it lies in the
      window that is current once the windows have been advanced to it. */
  lemma StepIntendedAdmits(ws: seq<Window>, s: Pass, c: Chunk)
    requires s.drOk && 0 < s.received <= |ws|
    ensures var a := if ws[s.received - 1].end < c.date then AdvanceOf(ws, s, c.date) else s;
            a.drOk && 0 < a.received <= |ws| && InWindow(ws[a.received - 1], c.date) ==>
              StepIntended(ws, s, c).history == a.history + [c]
  {
    var a := if ws[s.received - 1].end < c.date then AdvanceOf(ws, s, c.date) else s;
    assert StepIntended(ws, s, c) == StepOf(ws, a, c);
    if a.drOk && 0 < a.received <= |ws| && InWindow(ws[a.received - 1], c.date) {
      var b := a.(admitted := a.admitted + [c], history := a.history + [c]);
      if c.date < ws[a.received - 1].end {
        assert StepOf(ws, a, c) == b;
      } else {
        assert StepOf(ws, a, c) == AdvanceOf(ws, b, c.date);
        AdvanceHistory(ws, b, c.date);
      }
    }
  }

  /** The intended step on the dropped chunk: after the window [1, 4] has
      reported the chunks dated 1, 2 and 3, the chunk dated 6 advances the
      windows to [5, 8] and is admitted there. */
  lemma PastEndChunkKept()
    ensures var ws := [Window(1, 4, 4), Window(5, 8, 4)];
            var input := [Day(1), Day(2), Day(3), Day(6)];
            var r := StepIntended(ws, Pass(1, true, 0, input[..3], input[..3], [], []), input[3]);
            r.received == 2 && r.admitted == [input[3]] && r.history == input && r.groups == [input[..3]]
  {
    var ws := [Window(1, 4, 4), Window(5, 8, 4)];
    var input := [Day(1), Day(2), Day(3), Day(6)];
    var s3 := Pass(1, true, 0, input[..3], input[..3], [], []);
    var t := NextRangeOf(ws, s3);
    assert t == Pass(2, true, 1, [], input[..3], [0], [input[..3]]);
    assert AdvanceOf(ws, s3, 6) == t;
    assert input[..3] + [input[3]] == input;
  }
}
