/** Receive gaps of a trading session: clipped to the session, merged into separate spans and totalled, then
    split into loss and silence. Times are whole nanoseconds. */
module GapSpans {
  datatype Span = Span(lo: int, hi: int)

  predicate Within(x: int, s: Span) { s.lo <= x < s.hi }

  predicate Covered(x: int, spans: seq<Span>) { exists i :: 0 <= i < |spans| && Within(x, spans[i]) }

  /** A nanosecond of the session that some gap contains. */
  predicate InGap(x: int, gaps: seq<Span>, open: int, close: int) { open <= x < close && Covered(x, gaps) }

  predicate Before(a: Span, b: Span) { a.lo < b.lo || (a.lo == b.lo && a.hi <= b.hi) }

  predicate SortedSpans(spans: seq<Span>) {
    forall i, j :: 0 <= i < j < |spans| ==> Before(spans[i], spans[j])
  }

  predicate Proper(spans: seq<Span>) { forall i :: 0 <= i < |spans| ==> spans[i].lo < spans[i].hi }

  /** Sorted, with at least one free nanosecond between neighbours. */
  predicate Separated(spans: seq<Span>) {
    && Proper(spans)
    && forall i, j :: 0 <= i < j < |spans| ==> spans[i].hi < spans[j].lo
  }

  function Total(spans: seq<Span>): int {
    if spans == [] then 0 else Total(spans[..|spans| - 1]) + (spans[|spans| - 1].hi - spans[|spans| - 1].lo)
  }

  // ---------------------------------------------------------------- coverage

  lemma CoveredConcat(x: int, a: seq<Span>, b: seq<Span>)
    ensures Covered(x, a + b) <==> Covered(x, a) || Covered(x, b)
  {
    var all := a + b;
    if Covered(x, a) {
      var i :| 0 <= i < |a| && Within(x, a[i]);
      assert Within(x, all[i]);
    }
    if Covered(x, b) {
      var i :| 0 <= i < |b| && Within(x, b[i]);
      assert Within(x, all[|a| + i]);
    }
  }

  lemma CoveredOne(x: int, s: Span)
    ensures Covered(x, [s]) <==> Within(x, s)
  {
    assert [s][0] == s;
  }

  // ---------------------------------------------------------------- counting

  /** The nanoseconds of a span. */
  function Stretch(s: Span): set<int> { set x | s.lo <= x < s.hi && Within(x, s) }

  lemma {:induction false} StretchSize(s: Span)
    requires s.lo <= s.hi
    ensures |Stretch(s)| == s.hi - s.lo
    decreases s.hi - s.lo
  {
    if s.lo < s.hi {
      var shorter := Span(s.lo, s.hi - 1);
      StretchSize(shorter);
      assert Stretch(s) == Stretch(shorter) + {s.hi - 1};
    } else {
      assert Stretch(s) == {};
    }
  }

  /** The session's nanoseconds that the spans cover. */
  function CoveredSet(spans: seq<Span>, open: int, close: int): set<int> {
    set x | open <= x < close && Covered(x, spans)
  }

  /** The total length of separated spans is the number of nanoseconds they cover. */
  lemma {:induction false} TotalCounts(spans: seq<Span>, open: int, close: int)
    requires Separated(spans) && forall i :: 0 <= i < |spans| ==> open <= spans[i].lo && spans[i].hi <= close
    ensures Total(spans) == |CoveredSet(spans, open, close)|
  {
    if spans == [] {
      assert CoveredSet(spans, open, close) == {};
    } else {
      var init, last := spans[..|spans| - 1], spans[|spans| - 1];
      TotalCounts(init, open, close);
      StretchSize(last);
      AddStretch(spans, open, close);
    }
  }

  lemma AddStretch(spans: seq<Span>, open: int, close: int)
    requires spans != [] && Separated(spans)
    requires open <= spans[|spans| - 1].lo && spans[|spans| - 1].hi <= close
    ensures var init, last := spans[..|spans| - 1], spans[|spans| - 1];
            && CoveredSet(spans, open, close) == CoveredSet(init, open, close) + Stretch(last)
            && CoveredSet(init, open, close) !! Stretch(last)
  {
    var init, last := spans[..|spans| - 1], spans[|spans| - 1];
    forall x
      ensures Covered(x, spans) <==> Covered(x, init) || Within(x, last)
    {
      assert spans == init + [last];
      CoveredConcat(x, init, [last]);
      CoveredOne(x, last);
    }
  }

  // ---------------------------------------------------------------- clip, sort, merge

  /** Keeps the part of every gap inside the session. */
  method Clip(gaps: seq<Span>, open: int, close: int) returns (clipped: seq<Span>)
    ensures Proper(clipped) && forall i :: 0 <= i < |clipped| ==> open <= clipped[i].lo && clipped[i].hi <= close
    ensures forall x :: Covered(x, clipped) <==> InGap(x, gaps, open, close)
  {
    clipped := [];
    for k := 0 to |gaps|
      invariant Proper(clipped) && forall i :: 0 <= i < |clipped| ==> open <= clipped[i].lo && clipped[i].hi <= close
      invariant forall x :: Covered(x, clipped) <==> InGap(x, gaps[..k], open, close)
    {
      var lo := if gaps[k].lo >= open then gaps[k].lo else open;
      var hi := if gaps[k].hi <= close then gaps[k].hi else close;
      ghost var before := clipped;
      if hi > lo {
        clipped := clipped + [Span(lo, hi)];
      }
      ClipOne(gaps, k, open, close, before, clipped, Span(lo, hi));
    }
    assert gaps[..|gaps|] == gaps;
  }

  lemma ClipOne(gaps: seq<Span>, k: nat, open: int, close: int, before: seq<Span>, after: seq<Span>, s: Span)
    requires k < |gaps|
    requires s.lo == (if gaps[k].lo >= open then gaps[k].lo else open)
    requires s.hi == (if gaps[k].hi <= close then gaps[k].hi else close)
    requires after == if s.hi > s.lo then before + [s] else before
    requires forall x :: Covered(x, before) <==> InGap(x, gaps[..k], open, close)
    ensures forall x :: Covered(x, after) <==> InGap(x, gaps[..k + 1], open, close)
  {
    forall x
      ensures Covered(x, after) <==> InGap(x, gaps[..k + 1], open, close)
    {
      assert gaps[..k + 1] == gaps[..k] + [gaps[k]];
      CoveredConcat(x, gaps[..k], [gaps[k]]);
      CoveredOne(x, gaps[k]);
      CoveredConcat(x, before, [s]);
      CoveredOne(x, s);
    }
  }

  predicate Bounded(spans: seq<Span>, open: int, close: int) {
    Proper(spans) && forall i :: 0 <= i < |spans| ==> open <= spans[i].lo && spans[i].hi <= close
  }

  /** Inserts a span into a sorted list. */
  function Insert(spans: seq<Span>, s: Span): seq<Span> {
    if spans == [] || Before(spans[|spans| - 1], s) then spans + [s]
    else Insert(spans[..|spans| - 1], s) + [spans[|spans| - 1]]
  }

  lemma {:induction false} InsertKeeps(spans: seq<Span>, s: Span)
    ensures multiset(Insert(spans, s)) == multiset(spans) + multiset{s}
  {
    if !(spans == [] || Before(spans[|spans| - 1], s)) {
      assert spans == spans[..|spans| - 1] + [spans[|spans| - 1]];
      InsertKeeps(spans[..|spans| - 1], s);
    }
  }

  lemma {:induction false} InsertSorts(spans: seq<Span>, s: Span)
    requires SortedSpans(spans)
    ensures SortedSpans(Insert(spans, s))
  {
    if !(spans == [] || Before(spans[|spans| - 1], s)) {
      var init, last := spans[..|spans| - 1], spans[|spans| - 1];
      InsertSorts(init, s);
      var inner := Insert(init, s);
      forall i | 0 <= i < |inner|
        ensures Before(inner[i], last)
      {
        InsertKeeps(init, s);
        assert inner[i] in multiset(inner);
        if inner[i] != s {
          assert inner[i] in multiset(init);
          var k :| 0 <= k < |init| && init[k] == inner[i];
        }
      }
    }
  }

  method Sort(spans: seq<Span>) returns (sorted: seq<Span>)
    ensures SortedSpans(sorted) && multiset(sorted) == multiset(spans)
  {
    sorted := [];
    for k := 0 to |spans|
      invariant SortedSpans(sorted) && multiset(sorted) == multiset(spans[..k])
    {
      InsertSorts(sorted, spans[k]);
      InsertKeeps(sorted, spans[k]);
      sorted := Insert(sorted, spans[k]);
      assert spans[..k + 1] == spans[..k] + [spans[k]];
    }
    assert spans[..|spans|] == spans;
  }

  /** What one sorted span does to the merged list: it extends the last entry or starts a new one. */
  function MergeOne(merged: seq<Span>, s: Span): seq<Span> {
    if merged != [] && s.lo <= merged[|merged| - 1].hi then
      var last := merged[|merged| - 1];
      merged[..|merged| - 1] + [Span(last.lo, if last.hi >= s.hi then last.hi else s.hi)]
    else merged + [s]
  }

  lemma MergeKeepsApart(merged: seq<Span>, s: Span)
    requires Separated(merged) && s.lo < s.hi && (merged != [] ==> merged[|merged| - 1].lo <= s.lo)
    ensures Separated(MergeOne(merged, s)) && MergeOne(merged, s) != []
    ensures var next := MergeOne(merged, s); next[|next| - 1].lo <= s.lo
  {
    if merged != [] {
      forall i | 0 <= i < |merged| - 1
        ensures merged[i].hi < merged[|merged| - 1].lo < merged[|merged| - 1].hi
      {
      }
    }
  }

  lemma MergeCovers(merged: seq<Span>, s: Span, x: int)
    requires s.lo < s.hi && Proper(merged) && (merged != [] ==> merged[|merged| - 1].lo <= s.lo)
    ensures Covered(x, MergeOne(merged, s)) <==> Covered(x, merged) || Within(x, s)
  {
    if merged != [] && s.lo <= merged[|merged| - 1].hi {
      var init, last := merged[..|merged| - 1], merged[|merged| - 1];
      var wide := Span(last.lo, if last.hi >= s.hi then last.hi else s.hi);
      assert merged == init + [last];
      CoveredConcat(x, init, [last]);
      CoveredOne(x, last);
      CoveredConcat(x, init, [wide]);
      CoveredOne(x, wide);
    } else {
      CoveredConcat(x, merged, [s]);
      CoveredOne(x, s);
    }
  }

  lemma MergeStep(merged: seq<Span>, sorted: seq<Span>, k: nat)
    requires k < |sorted| && Proper(merged) && Proper(sorted)
    requires merged != [] ==> merged[|merged| - 1].lo <= sorted[k].lo
    requires forall x :: Covered(x, merged) <==> Covered(x, sorted[..k])
    ensures forall x :: Covered(x, MergeOne(merged, sorted[k])) <==> Covered(x, sorted[..k + 1])
  {
    forall x
      ensures Covered(x, MergeOne(merged, sorted[k])) <==> Covered(x, sorted[..k + 1])
    {
      MergeCovers(merged, sorted[k], x);
      assert sorted[..k + 1] == sorted[..k] + [sorted[k]];
      CoveredConcat(x, sorted[..k], [sorted[k]]);
      CoveredOne(x, sorted[k]);
    }
  }

  method Merge(sorted: seq<Span>, ghost open: int, ghost close: int) returns (merged: seq<Span>)
    requires SortedSpans(sorted) && Bounded(sorted, open, close)
    ensures Separated(merged) && Bounded(merged, open, close)
    ensures forall x :: Covered(x, merged) <==> Covered(x, sorted)
  {
    merged := [];
    for k := 0 to |sorted|
      invariant Separated(merged) && Bounded(merged, open, close)
      invariant merged != [] ==> forall j :: k <= j < |sorted| ==> merged[|merged| - 1].lo <= sorted[j].lo
      invariant forall x :: Covered(x, merged) <==> Covered(x, sorted[..k])
    {
      var s := sorted[k];
      MergeKeepsApart(merged, s);
      MergeStep(merged, sorted, k);
      ghost var next := MergeOne(merged, s);
      if merged != [] && s.lo <= merged[|merged| - 1].hi {
        var last := merged[|merged| - 1];
        merged := merged[|merged| - 1 := Span(last.lo, if last.hi >= s.hi then last.hi else s.hi)];
      } else {
        merged := merged + [s];
      }
      assert merged == next;
    }
    assert sorted[..|sorted|] == sorted;
  }

  // ---------------------------------------------------------------- the two helpers

  lemma SameSpans(a: seq<Span>, b: seq<Span>, open: int, close: int)
    requires multiset(a) == multiset(b) && Bounded(a, open, close)
    ensures Bounded(b, open, close) && forall x :: Covered(x, a) <==> Covered(x, b)
  {
    forall s
      ensures s in a <==> s in b
    {
      assert s in a <==> s in multiset(a);
      assert s in b <==> s in multiset(b);
    }
    forall i | 0 <= i < |b|
      ensures b[i] in a
    {
      assert b[i] in b;
    }
    forall x
      ensures Covered(x, a) <==> Covered(x, b)
    {
      if Covered(x, a) {
        var i :| 0 <= i < |a| && Within(x, a[i]);
        assert a[i] in b;
      }
    }
  }

  /** Any list of gaps becomes sorted, separated spans that cover exactly the gaps' part of the session, and
      the total is the number of nanoseconds covered. */
  method ClipMergeSpans(gaps: seq<Span>, open: int, close: int) returns (merged: seq<Span>, total: int)
    ensures Separated(merged)
    ensures forall x :: Covered(x, merged) <==> InGap(x, gaps, open, close)
    ensures total == Total(merged) == |CoveredSet(gaps, open, close)|
  {
    var clipped := Clip(gaps, open, close);
    var sorted := Sort(clipped);
    SameSpans(clipped, sorted, open, close);
    merged := Merge(sorted, open, close);
    total := 0;
    for k := 0 to |merged|
      invariant total == Total(merged[..k])
    {
      total := total + (merged[k].hi - merged[k].lo);
      assert merged[..k + 1][..k] == merged[..k];
    }
    assert merged[..|merged|] == merged;
    TotalCounts(merged, open, close);
    assert CoveredSet(merged, open, close) == CoveredSet(gaps, open, close);
  }

  /** A stretch between two received sequence numbers of one symbol, in either order of receipt. */
  datatype Interval = Interval(regular: bool, prev: int, next: int)

  /** A span overlaps an interval of the regular session. */
  predicate Overlaps(s: Span, intervals: seq<Interval>) {
    exists i :: 0 <= i < |intervals| && intervals[i].regular && Crosses(s, WindowOf(intervals[i]))
  }

  predicate Crosses(s: Span, w: Span) { s.lo < w.hi && w.lo < s.hi }

  function WindowOf(i: Interval): Span { if i.prev <= i.next then Span(i.prev, i.next) else Span(i.next, i.prev) }

  /** Some interval of the regular session neither lies wholly before the span nor wholly after it. */
  lemma OverlapsByFields(s: Span, intervals: seq<Interval>)
    ensures Overlaps(s, intervals)
            <==> exists i :: && 0 <= i < |intervals| && intervals[i].regular
                             && (intervals[i].prev > s.lo || intervals[i].next > s.lo)
                             && (intervals[i].prev < s.hi || intervals[i].next < s.hi)
  {
    forall i | 0 <= i < |intervals|
      ensures Crosses(s, WindowOf(intervals[i]))
              <==> && (intervals[i].prev > s.lo || intervals[i].next > s.lo)
                   && (intervals[i].prev < s.hi || intervals[i].next < s.hi)
    {
    }
  }

  predicate CrossesAny(s: Span, windows: seq<Span>) { exists i :: 0 <= i < |windows| && Crosses(s, windows[i]) }

  predicate FromRegular(w: Span, intervals: seq<Interval>, n: nat)
    requires n <= |intervals|
  {
    exists i :: 0 <= i < n && intervals[i].regular && w == WindowOf(intervals[i])
  }

  method Windows(intervals: seq<Interval>) returns (windows: seq<Span>)
    ensures forall s :: CrossesAny(s, windows) <==> Overlaps(s, intervals)
  {
    windows := [];
    for k := 0 to |intervals|
      invariant forall w :: w in windows <==> FromRegular(w, intervals, k)
    {
      if intervals[k].regular {
        windows := windows + [WindowOf(intervals[k])];
      }
    }
    forall s
      ensures CrossesAny(s, windows) <==> Overlaps(s, intervals)
    {
      if CrossesAny(s, windows) {
        var j :| 0 <= j < |windows| && Crosses(s, windows[j]);
        assert FromRegular(windows[j], intervals, |intervals|);
      }
      if Overlaps(s, intervals) {
        var i :| 0 <= i < |intervals| && intervals[i].regular && Crosses(s, WindowOf(intervals[i]));
        assert FromRegular(WindowOf(intervals[i]), intervals, |intervals|);
      }
    }
  }

  /** The spans of one kind: loss when an interval of the regular session overlaps, silence otherwise. */
  function Select(merged: seq<Span>, intervals: seq<Interval>, loss: bool): seq<Span> {
    if merged == [] then []
    else
      var last := merged[|merged| - 1];
      var before := Select(merged[..|merged| - 1], intervals, loss);
      if Overlaps(last, intervals) == loss then before + [last] else before
  }

  /** Loss and silence part the spans between them: their lengths add up to the total. */
  method SplitSilentLoss(merged: seq<Span>, intervals: seq<Interval>) returns (silent: int, loss: int, silentCount: nat)
    ensures silent == Total(Select(merged, intervals, false)) && loss == Total(Select(merged, intervals, true))
    ensures silentCount == |Select(merged, intervals, false)|
    ensures silent + loss == Total(merged)
  {
    var windows := Windows(intervals);
    silent, loss, silentCount := 0, 0, 0;
    for k := 0 to |merged|
      invariant silent == Total(Select(merged[..k], intervals, false)) && loss == Total(Select(merged[..k], intervals, true))
      invariant silentCount == |Select(merged[..k], intervals, false)|
      invariant silent + loss == Total(merged[..k])
    {
      var s := merged[k];
      SelectMore(merged, intervals, k);
      if CrossesAny(s, windows) {
        loss := loss + (s.hi - s.lo);
      } else {
        silent := silent + (s.hi - s.lo);
        silentCount := silentCount + 1;
      }
    }
    assert merged[..|merged|] == merged;
  }

  lemma SelectMore(merged: seq<Span>, intervals: seq<Interval>, k: nat)
    requires k < |merged|
    ensures Total(merged[..k + 1]) == Total(merged[..k]) + (merged[k].hi - merged[k].lo)
    ensures var lost := Overlaps(merged[k], intervals);
            && Select(merged[..k + 1], intervals, lost) == Select(merged[..k], intervals, lost) + [merged[k]]
            && Select(merged[..k + 1], intervals, !lost) == Select(merged[..k], intervals, !lost)
            && Total(Select(merged[..k + 1], intervals, lost))
               == Total(Select(merged[..k], intervals, lost)) + (merged[k].hi - merged[k].lo)
  {
    assert merged[..k + 1][..k] == merged[..k];
    var before := Select(merged[..k], intervals, Overlaps(merged[k], intervals));
    assert (before + [merged[k]])[..|before|] == before;
  }
}
