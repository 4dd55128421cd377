/** Stand-ins for the external date and chunk types the reductions consume,
    and the ordering helpers the window synchroniser and the retraction ledger
    need. */
module Grid {

  /** One channel reading. The source marks a missing reading with NaN
      (detected by `v == v` failing); here it is an explicit constructor. */
  datatype Value = Missing | Present(x: real)

  /** A date-indexed data chunk: its date key, the positional metadata copied
      into outputs, and one value per channel. Outputs use the same type. */
  datatype Chunk = Chunk(date: int, offset: int, length: int, data: seq<Value>)

  /** A date window: inclusive bounds and the number of observations a fully
      populated window holds (`Len()` in the source). */
  datatype Window = Window(start: int, end: int, len: int)

  /** The window's `Resample` of a representative date into the output date.
      It belongs to the external window type, so the model takes it as given. */
  type Resampler = (Window, int) -> int

  /** A window admits a chunk iff its date lies in [start, end]. */
  predicate InWindow(w: Window, date: int) {
    w.start <= date <= w.end
  }

  /** Dates never decrease along `cs` (the chunk source's promised order). */
  ghost predicate Sorted(cs: seq<Chunk>) {
    forall j, k :: 0 <= j < k < |cs| ==> cs[j].date <= cs[k].date
  }

  /** Window starts never decrease along `ws` (the window source's promised order). */
  ghost predicate StartsSorted(ws: seq<Window>) {
    forall j, k :: 0 <= j < k < |ws| ==> ws[j].start <= ws[k].start
  }

  /** The chunks of `cs` dated at or after `s`, in order: the ones a window
      starting at `s` still holds. */
  function Since(cs: seq<Chunk>, s: int): (r: seq<Chunk>)
    ensures |r| <= |cs|
  {
    if cs == [] then []
    else Since(cs[..|cs| - 1], s) + (if s <= cs[|cs| - 1].date then [cs[|cs| - 1]] else [])
  }

  /** What the ledger eviction loop leaves: the head chunks dated before `s`
      are dropped, up to the first one that is not. */
  function DropBefore(cs: seq<Chunk>, s: int): (r: seq<Chunk>)
    ensures r == [] || s <= r[0].date
  {
    if cs != [] && cs[0].date < s then DropBefore(cs[1..], s) else cs
  }

  /** The ledger after retracting `ledger` to the start of each window of
      `ws` in turn, as the eviction loop does once per window taken. */
  function RetractedTo(ledger: seq<Chunk>, ws: seq<Window>): seq<Chunk>
    decreases |ws|
  {
    if ws == [] then ledger else RetractedTo(DropBefore(ledger, ws[0].start), ws[1..])
  }

  /** The latest start among the windows of `ws`. */
  function LatestStart(ws: seq<Window>): (m: int)
    requires ws != []
    ensures forall i :: 0 <= i < |ws| ==> ws[i].start <= m
    ensures exists i :: 0 <= i < |ws| && ws[i].start == m
    decreases |ws|
  {
    if |ws| == 1 then ws[0].start
    else
      var m := LatestStart(ws[1..]);
      assert forall i :: 1 <= i < |ws| ==> ws[i] == ws[1..][i - 1];
      if ws[0].start < m then m else ws[0].start
  }

  /** Retracting to `s` and then to `t` retracts to the later of the two. */
  lemma {:induction false} DropBeforeTwice(cs: seq<Chunk>, s: int, t: int)
    ensures DropBefore(DropBefore(cs, s), t) == DropBefore(cs, if s < t then t else s)
  {
    if cs != [] && cs[0].date < s {
      DropBeforeTwice(cs[1..], s, t);
      if s < t {
        assert DropBefore(cs, t) == DropBefore(cs[1..], t);
      }
    } else if s < t && cs != [] && cs[0].date < t {
      assert DropBefore(cs, s) == cs;
    }
  }

  /** Retracting window by window is one retraction, to the latest start:
      retractions to earlier starts than one already applied drop nothing. */
  lemma {:induction false} RetractedToLatest(ledger: seq<Chunk>, ws: seq<Window>)
    requires ws != []
    ensures RetractedTo(ledger, ws) == DropBefore(ledger, LatestStart(ws))
    decreases |ws|
  {
    if |ws| > 1 {
      var d := DropBefore(ledger, ws[0].start);
      RetractedToLatest(d, ws[1..]);
      DropBeforeTwice(ledger, ws[0].start, LatestStart(ws[1..]));
    }
  }

  /** Filtering keeps only chunks of the original, in their order, so a
      date-ordered sequence stays date-ordered. */
  lemma {:induction false} SinceSorted(cs: seq<Chunk>, s: int)
    ensures forall c :: c in Since(cs, s) ==> c in cs
    ensures Sorted(cs) ==> Sorted(Since(cs, s))
  {
    if cs != [] {
      var init, last := cs[..|cs| - 1], cs[|cs| - 1];
      SinceSorted(init, s);
      assert forall c :: c in init ==> c in cs;
      if Sorted(cs) {
        assert Sorted(init);
        assert forall c :: c in init ==> c.date <= last.date;
        SortedAppend(Since(init, s), last);
      }
    }
  }

  /** Appending a chunk dated no earlier than any already present keeps the
      order. */
  lemma SortedAppend(cs: seq<Chunk>, c: Chunk)
    requires Sorted(cs)
    requires forall x :: x in cs ==> x.date <= c.date
    ensures Sorted(cs + [c])
  {
    forall j, k | 0 <= j < k < |cs| + 1
      ensures (cs + [c])[j].date <= (cs + [c])[k].date
    {
      if k == |cs| {
        assert cs[j] in cs;
      }
    }
  }

  /** A prefix of a date-ordered sequence is date-ordered. */
  lemma SortedPrefix(cs: seq<Chunk>, n: nat)
    requires Sorted(cs) && n <= |cs|
    ensures Sorted(cs[..n])
  {
    forall j, k | 0 <= j < k < n
      ensures cs[..n][j].date <= cs[..n][k].date
    {
      assert cs[..n][j] == cs[j] && cs[..n][k] == cs[k];
    }
  }

  /** In a date-ordered sequence, every chunk before position `i` is dated no
      later than the chunk at `i`. */
  lemma SortedBefore(cs: seq<Chunk>, i: nat, x: Chunk)
    requires Sorted(cs) && i < |cs| && x in cs[..i]
    ensures x.date <= cs[i].date
  {
    var j :| 0 <= j < i && cs[..i][j] == x;
    assert cs[j] == x;
  }

  /** The ledger slides with the window: when it held the chunks of an
      ordered history dated at or after the old start, evicting head chunks
      dated before a later start leaves the chunks dated at or after that
      later start. */
  lemma LedgerSlides(history: seq<Chunk>, ledger: seq<Chunk>, s0: int, s1: int)
    requires Sorted(history) && ledger == Since(history, s0) && s0 <= s1
    ensures DropBefore(ledger, s1) == Since(history, s1)
  {
    SinceSorted(history, s0);
    DropBeforeIsSince(ledger, s1);
    SinceSince(history, s0, s1);
  }

  lemma {:induction false} SinceAppend(cs: seq<Chunk>, c: Chunk, s: int)
    ensures Since(cs + [c], s) == Since(cs, s) + (if s <= c.date then [c] else [])
  {
    assert (cs + [c])[..|cs|] == cs;
  }

  lemma {:induction false} SinceHead(c: Chunk, cs: seq<Chunk>, s: int)
    ensures Since([c] + cs, s) == (if s <= c.date then [c] else []) + Since(cs, s)
  {
    if cs != [] {
      var init := cs[..|cs| - 1];
      assert ([c] + cs)[..|cs|] == [c] + init;
      SinceHead(c, init, s);
    }
  }

  /** Filtering twice by non-decreasing starts is filtering by the later one. */
  lemma {:induction false} SinceSince(cs: seq<Chunk>, s: int, t: int)
    requires s <= t
    ensures Since(Since(cs, s), t) == Since(cs, t)
  {
    if cs != [] {
      var init, last := cs[..|cs| - 1], cs[|cs| - 1];
      SinceSince(init, s, t);
      if s <= last.date {
        assert Since(cs, s) == Since(init, s) + [last];
        SinceAppend(Since(init, s), last, t);
      } else {
        assert Since(cs, s) == Since(init, s);
      }
    }
  }

  /** On date-ordered chunks, dropping the head chunks dated before `s` keeps
      exactly the chunks dated at or after `s`: the ledger eviction loop, which
      stops at the first chunk still in range, loses nothing and keeps nothing
      stale. */
  lemma {:induction false} DropBeforeIsSince(cs: seq<Chunk>, s: int)
    requires Sorted(cs)
    ensures DropBefore(cs, s) == Since(cs, s)
  {
    if cs != [] {
      assert cs == [cs[0]] + cs[1..];
      SinceHead(cs[0], cs[1..], s);
      if cs[0].date < s {
        DropBeforeIsSince(cs[1..], s);
      } else {
        SinceAllAtOrAfter(cs, s);
      }
    }
  }

  /** When every chunk is dated at or after `s`, filtering by `s` keeps all. */
  lemma {:induction false} SinceAllAtOrAfter(cs: seq<Chunk>, s: int)
    requires forall i :: 0 <= i < |cs| ==> s <= cs[i].date
    ensures Since(cs, s) == cs
  {
    if cs != [] {
      var init := cs[..|cs| - 1];
      assert forall i :: 0 <= i < |init| ==> init[i] == cs[i];
      SinceAllAtOrAfter(init, s);
      assert init + [cs[|cs| - 1]] == cs;
    }
  }

  /** The windows the outputs so far report: strictly increasing indices, all
      among the first `closed` of `n` windows. */
  ghost predicate IdsBelow(ids: seq<nat>, closed: nat, n: nat) {
    && closed <= n
    && (forall k :: 0 <= k < |ids| ==> ids[k] < closed)
    && (forall j, k :: 0 <= j < k < |ids| ==> ids[j] < ids[k])
  }

  /** Reporting a window not yet closed keeps the indices increasing. */
  lemma IdsBelowExtend(ids: seq<nat>, closed: nat, n: nat, id: nat)
    requires IdsBelow(ids, closed, n) && closed <= id < n
    ensures IdsBelow(ids + [id], id + 1, n)
  {
  }

  lemma IdsBelowWiden(ids: seq<nat>, closed: nat, closed': nat, n: nat)
    requires IdsBelow(ids, closed, n) && closed <= closed' <= n
    ensures IdsBelow(ids, closed', n)
  {
  }

  /** A strictly increasing sequence of indices below `n` has at most `n`
      entries: outputs tagged with strictly increasing window indices are at
      most as many as the windows. */
  lemma {:induction false} IncreasingIndicesBound(ids: seq<nat>, n: nat)
    requires forall k :: 0 <= k < |ids| ==> ids[k] < n
    requires forall j, k :: 0 <= j < k < |ids| ==> ids[j] < ids[k]
    ensures |ids| <= n
  {
    if ids != [] {
      var last := ids[|ids| - 1];
      IncreasingIndicesBound(ids[..|ids| - 1], last);
    }
  }
}
