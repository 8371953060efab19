/** Calling windows: daily half-open intervals on the wall clock of a fixed-offset zone, clamped by
    a hard bound. Times are integer microseconds. */
module CallingWindow {
  import opened Basics

  const DAY := 86_400_000_000
  const MINUTE := 60_000_000

  type TimeOfDay = t: int | 0 <= t < 86_400_000_000

  datatype Span = Span(start: int, end: int)

  /** None is the source's ValueError for a window whose start equals its end. */
  function Intervals(start: TimeOfDay, end: TimeOfDay): Option<seq<Span>>
  {
    if start == end then None
    else if start < end then Some([Span(start, end)])
    else Some([Span(start, DAY)] + if end > 0 then [Span(0, end)] else [])
  }

  predicate InSpan(t: int, s: Span) { s.start <= t < s.end }

  predicate InSpans(t: int, spans: seq<Span>) { exists i :: 0 <= i < |spans| && InSpan(t, spans[i]) }

  function Overlap(a: Span, b: Span): Span
  {
    Span(if a.start >= b.start then a.start else b.start, if a.end <= b.end then a.end else b.end)
  }

  function OverlapsWith(a: Span, bs: seq<Span>): seq<Span>
  {
    if bs == [] then []
    else (var o := Overlap(a, bs[0]); if o.start < o.end then [o] else []) + OverlapsWith(a, bs[1..])
  }

  function Overlaps(xs: seq<Span>, bs: seq<Span>): seq<Span>
  {
    if xs == [] then [] else OverlapsWith(xs[0], bs) + Overlaps(xs[1..], bs)
  }

  predicate Before(a: Span, b: Span) { a.start < b.start || (a.start == b.start && a.end <= b.end) }

  function Insert(s: Span, sorted: seq<Span>): seq<Span>
  {
    if sorted == [] || Before(s, sorted[0]) then [s] + sorted else [sorted[0]] + Insert(s, sorted[1..])
  }

  function Sort(spans: seq<Span>): seq<Span>
  {
    if spans == [] then [] else Insert(spans[0], Sort(spans[1..]))
  }

  function Intersect(a: seq<Span>, b: seq<Span>): seq<Span> { Sort(Overlaps(a, b)) }

  function LocalTime(at: int, offset: int): TimeOfDay { (at + offset) % DAY }

  function LocalDay(at: int, offset: int): int { (at + offset) / DAY }

  function WithinWindow(at: int, offset: int, start: TimeOfDay, end: TimeOfDay): Option<bool>
  {
    var spans := Intervals(start, end);
    if spans.None? then None else Some(InSpans(LocalTime(at, offset), spans.value))
  }

  datatype Windows = Windows(start: TimeOfDay, end: TimeOfDay, hardStart: TimeOfDay, hardEnd: TimeOfDay)

  /** Both windows open. As in the source the hard bound is not looked at when the campaign window
      is closed. */
  function DialableNow(at: int, offset: int, w: Windows): Option<bool>
  {
    var campaign := WithinWindow(at, offset, w.start, w.end);
    if campaign.None? || !campaign.value then campaign else WithinWindow(at, offset, w.hardStart, w.hardEnd)
  }

  function WithinBound(w: Windows): Option<bool>
  {
    var bound := Intervals(w.hardStart, w.hardEnd);
    var spans := Intervals(w.start, w.end);
    if bound.None? || spans.None? then None
    else Some(forall i :: 0 <= i < |spans.value| ==>
      exists j :: 0 <= j < |bound.value| && bound.value[j].start <= spans.value[i].start
                  && spans.value[i].end <= bound.value[j].end)
  }

  // ---- an independent reading of a window ---------------------------------------------------

  /** On the clock face: from start (included) round to end (excluded). */
  predicate OnClockFace(t: int, start: int, end: int)
  {
    if start <= end then start <= t < end else t >= start || t < end
  }

  lemma IntervalsMeanClockFace(t: TimeOfDay, start: TimeOfDay, end: TimeOfDay)
    requires start != end
    ensures InSpans(t, Intervals(start, end).value) <==> OnClockFace(t, start, end)
  {
    var spans := Intervals(start, end).value;
    if start < end {
      assert InSpan(t, spans[0]) <==> OnClockFace(t, start, end);
    } else {
      assert InSpan(t, spans[0]) <==> t >= start;
      if end > 0 {
        assert InSpan(t, spans[1]) <==> t < end;
      }
    }
  }

  predicate OpenAt(at: int, offset: int, w: Windows)
  {
    && OnClockFace(LocalTime(at, offset), w.start, w.end)
    && OnClockFace(LocalTime(at, offset), w.hardStart, w.hardEnd)
  }

  predicate Proper(w: Windows) { w.start != w.end && w.hardStart != w.hardEnd }

  lemma DialableMeansOpen(at: int, offset: int, w: Windows)
    requires Proper(w)
    ensures DialableNow(at, offset, w) == Some(OpenAt(at, offset, w))
  {
    IntervalsMeanClockFace(LocalTime(at, offset), w.start, w.end);
    IntervalsMeanClockFace(LocalTime(at, offset), w.hardStart, w.hardEnd);
  }

  // ---- save-time check ----------------------------------------------------------------------

  /** The save-time check holds exactly when every time of day in the campaign window is also inside
      the hard bound. */
  lemma WithinBoundIsInclusion(w: Windows)
    requires Proper(w)
    ensures WithinBound(w).value <==>
      forall t: TimeOfDay :: OnClockFace(t, w.start, w.end) ==> OnClockFace(t, w.hardStart, w.hardEnd)
  {
    var bound, spans := Intervals(w.hardStart, w.hardEnd).value, Intervals(w.start, w.end).value;
    if WithinBound(w).value {
      forall t: TimeOfDay | OnClockFace(t, w.start, w.end) ensures OnClockFace(t, w.hardStart, w.hardEnd) {
        IntervalsMeanClockFace(t, w.start, w.end);
        var i :| 0 <= i < |spans| && InSpan(t, spans[i]);
        var j :| 0 <= j < |bound| && bound[j].start <= spans[i].start && spans[i].end <= bound[j].end;
        assert InSpan(t, bound[j]);
        IntervalsMeanClockFace(t, w.hardStart, w.hardEnd);
      }
    } else {
      var i :| 0 <= i < |spans| && !exists j :: 0 <= j < |bound| && bound[j].start <= spans[i].start
                                               && spans[i].end <= bound[j].end;
      var t := TimeOutside(w, spans[i]);
      IntervalsMeanClockFace(t, w.start, w.end);
      assert InSpan(t, spans[i]);
    }
  }

  /** A span that fits in no piece of the bound contains a time outside the bound: its first instant,
      its last, or the end of the piece that holds its first instant. */
  lemma TimeOutside(w: Windows, s: Span) returns (t: TimeOfDay)
    requires Proper(w) && 0 <= s.start < s.end <= DAY
    requires var bound := Intervals(w.hardStart, w.hardEnd).value;
      !exists j :: 0 <= j < |bound| && bound[j].start <= s.start && s.end <= bound[j].end
    ensures InSpan(t, s) && !OnClockFace(t, w.hardStart, w.hardEnd)
  {
    var bound := Intervals(w.hardStart, w.hardEnd).value;
    assert !(bound[0].start <= s.start && s.end <= bound[0].end);
    if !OnClockFace(s.start, w.hardStart, w.hardEnd) {
      t := s.start;
    } else if w.hardStart < w.hardEnd || s.start < w.hardEnd {
      assert |bound| > 1 ==> !(bound[1].start <= s.start && s.end <= bound[1].end);
      t := w.hardEnd;
    } else {
      assert false;
    }
  }

  /** For a policy accepted at save time the clamp changes nothing, and there is always an opening. */
  lemma AcceptedPolicyNeedsNoClamp(at: int, offset: int, w: Windows)
    requires WithinBound(w) == Some(true)
    ensures DialableNow(at, offset, w) == WithinWindow(at, offset, w.start, w.end)
    ensures exists u :: u >= at && OpenAt(u, offset, w)
  {
    WithinBoundIsInclusion(w);
    IntervalsMeanClockFace(LocalTime(at, offset), w.start, w.end);
    IntervalsMeanClockFace(LocalTime(at, offset), w.hardStart, w.hardEnd);
    var u := Opening(at, offset, 1, w.start);
    OpeningTime(at, offset, 1, w.start);
    assert OpenAt(u, offset, w);
  }

  // ---- intersections ------------------------------------------------------------------------

  lemma {:induction false} OverlapsWithMembers(a: Span, bs: seq<Span>, o: Span)
    ensures o in OverlapsWith(a, bs) <==> exists j :: 0 <= j < |bs| && o == Overlap(a, bs[j]) && o.start < o.end
  {
    if bs != [] {
      OverlapsWithMembers(a, bs[1..], o);
      if o in OverlapsWith(a, bs[1..]) {
        var j :| 0 <= j < |bs[1..]| && o == Overlap(a, bs[1..][j]) && o.start < o.end;
        assert bs[j + 1] == bs[1..][j];
      }
      if j :| 0 <= j < |bs| && o == Overlap(a, bs[j]) && o.start < o.end {
        if j > 0 {
          assert bs[1..][j - 1] == bs[j];
        }
      }
    }
  }

  lemma {:induction false} OverlapsMembers(xs: seq<Span>, bs: seq<Span>, o: Span)
    ensures o in Overlaps(xs, bs) <==>
      exists i, j :: 0 <= i < |xs| && 0 <= j < |bs| && o == Overlap(xs[i], bs[j]) && o.start < o.end
  {
    if xs != [] {
      OverlapsMembers(xs[1..], bs, o);
      OverlapsWithMembers(xs[0], bs, o);
      if o in Overlaps(xs[1..], bs) {
        var i, j :| 0 <= i < |xs[1..]| && 0 <= j < |bs| && o == Overlap(xs[1..][i], bs[j]) && o.start < o.end;
        assert xs[i + 1] == xs[1..][i];
      }
      if i, j :| 0 <= i < |xs| && 0 <= j < |bs| && o == Overlap(xs[i], bs[j]) && o.start < o.end {
        if i > 0 {
          assert xs[1..][i - 1] == xs[i];
        }
      }
    }
  }

  lemma {:induction false} InsertMembers(s: Span, sorted: seq<Span>, o: Span)
    ensures o in Insert(s, sorted) <==> o == s || o in sorted
  {
    if sorted != [] && !Before(s, sorted[0]) {
      InsertMembers(s, sorted[1..], o);
      assert sorted == [sorted[0]] + sorted[1..];
    }
  }

  lemma {:induction false} SortMembers(spans: seq<Span>, o: Span)
    ensures o in Sort(spans) <==> o in spans
  {
    if spans != [] {
      SortMembers(spans[1..], o);
      InsertMembers(spans[0], Sort(spans[1..]), o);
      assert spans == [spans[0]] + spans[1..];
    }
  }

  function OpenSpans(w: Windows): seq<Span>
    requires Proper(w)
  {
    Intersect(Intervals(w.start, w.end).value, Intervals(w.hardStart, w.hardEnd).value)
  }

  /** The intersected spans are exactly the times open in both windows. */
  lemma OpenSpansMeanOpen(w: Windows, t: TimeOfDay)
    requires Proper(w)
    ensures (exists s :: s in OpenSpans(w) && InSpan(t, s)) <==>
      OnClockFace(t, w.start, w.end) && OnClockFace(t, w.hardStart, w.hardEnd)
  {
    var a, b := Intervals(w.start, w.end).value, Intervals(w.hardStart, w.hardEnd).value;
    IntervalsMeanClockFace(t, w.start, w.end);
    IntervalsMeanClockFace(t, w.hardStart, w.hardEnd);
    if s :| s in OpenSpans(w) && InSpan(t, s) {
      SortMembers(Overlaps(a, b), s);
      OverlapsMembers(a, b, s);
      var i, j :| 0 <= i < |a| && 0 <= j < |b| && s == Overlap(a[i], b[j]) && s.start < s.end;
      assert InSpan(t, a[i]) && InSpan(t, b[j]);
    }
    if InSpans(t, a) && InSpans(t, b) {
      var i :| 0 <= i < |a| && InSpan(t, a[i]);
      var j :| 0 <= j < |b| && InSpan(t, b[j]);
      var s := Overlap(a[i], b[j]);
      OverlapsMembers(a, b, s);
      SortMembers(Overlaps(a, b), s);
      assert s in OpenSpans(w) && InSpan(t, s);
    }
  }

  lemma OpenSpanShape(w: Windows, s: Span)
    requires Proper(w) && s in OpenSpans(w)
    ensures 0 <= s.start < s.end <= DAY
  {
    var a, b := Intervals(w.start, w.end).value, Intervals(w.hardStart, w.hardEnd).value;
    SortMembers(Overlaps(a, b), s);
    OverlapsMembers(a, b, s);
  }

  // ---- the next opening ---------------------------------------------------------------------

  /** The instant `day` days after today's date at which the wall clock shows t. */
  function Opening(now: int, offset: int, day: int, t: int): int
  {
    (LocalDay(now, offset) + day) * DAY + t - offset
  }

  lemma OpeningTime(now: int, offset: int, day: int, t: TimeOfDay)
    ensures LocalTime(Opening(now, offset, day, t), offset) == t
    ensures LocalDay(Opening(now, offset, day, t), offset) == LocalDay(now, offset) + day
    ensures day >= 1 ==> Opening(now, offset, day, t) > now
  {
    var d := LocalDay(now, offset) + day;
    assert Opening(now, offset, day, t) + offset == d * DAY + t;
  }

  lemma OpeningIsOpen(now: int, offset: int, w: Windows, day: int, s: Span)
    requires Proper(w) && s in OpenSpans(w)
    ensures OpenAt(Opening(now, offset, day, s.start), offset, w)
  {
    OpenSpanShape(w, s);
    OpeningTime(now, offset, day, s.start);
    assert InSpan(s.start, s);
    OpenSpansMeanOpen(w, s.start);
  }

  /** Every open instant after a closed one belongs to a span whose own opening lies in between. */
  lemma OpenInstantHasOpening(now: int, offset: int, w: Windows, u: int) returns (day: int, s: Span)
    requires Proper(w) && !OpenAt(now, offset, w) && now < u && OpenAt(u, offset, w)
    ensures s in OpenSpans(w) && day >= 0 && day == LocalDay(u, offset) - LocalDay(now, offset)
    ensures now < Opening(now, offset, day, s.start) <= u
  {
    var t := LocalTime(u, offset);
    OpenSpansMeanOpen(w, t);
    s :| s in OpenSpans(w) && InSpan(t, s);
    day := LocalDay(u, offset) - LocalDay(now, offset);
    OpenSpanShape(w, s);
    if Opening(now, offset, day, s.start) <= now {
      var n := LocalTime(now, offset);
      assert day == 0;
      assert InSpan(n, s);
      OpenSpansMeanOpen(w, n);
    }
  }

  datatype Answer = Opens(at: int) | NeverOpens | BadWindow

  /** The earliest dialable instant not before now. */
  ghost predicate EarliestOpening(now: int, offset: int, w: Windows, at: int)
  {
    at >= now && OpenAt(at, offset, w) && forall u :: now <= u < at ==> !OpenAt(u, offset, w)
  }

  /** Candidate openings considered: all of days 0..day-1, and the first `k` spans of `day`. */
  ghost predicate BestOf(now: int, offset: int, w: Windows, best: Option<int>, day: nat, k: nat)
    requires Proper(w)
  {
    && (best.Some? ==> best.value > now && OpenAt(best.value, offset, w)
                       && LocalDay(best.value, offset) <= LocalDay(now, offset) + day)
    && forall d: nat, i: nat :: i < |OpenSpans(w)| && (d < day || (d == day && i < k)) ==>
         Opening(now, offset, d, OpenSpans(w)[i].start) > now ==>
           best.Some? && best.value <= Opening(now, offset, d, OpenSpans(w)[i].start)
  }

  /** After three days the best candidate is no later than any open instant. */
  lemma NoOpeningMissed(now: int, offset: int, w: Windows, best: Option<int>, u: int)
    requires Proper(w) && !OpenAt(now, offset, w) && now <= u && OpenAt(u, offset, w)
    requires BestOf(now, offset, w, best, 3, 0) && OpenSpans(w) != []
    ensures best.Some? && best.value <= u
  {
    var first := OpenSpans(w)[0];
    OpenSpanShape(w, first);
    OpeningTime(now, offset, 1, first.start);
    assert best.value <= Opening(now, offset, 1, first.start);
    var day, s := OpenInstantHasOpening(now, offset, w, u);
    var i :| 0 <= i < |OpenSpans(w)| && OpenSpans(w)[i] == s;
    if day <= 2 {
      var d: nat := day;
      assert best.value <= Opening(now, offset, d, OpenSpans(w)[i].start);
    }
  }

  lemma BestIsEarliest(now: int, offset: int, w: Windows, best: Option<int>)
    requires Proper(w) && !OpenAt(now, offset, w) && OpenSpans(w) != []
    requires BestOf(now, offset, w, best, 3, 0)
    ensures best.Some? && EarliestOpening(now, offset, w, best.value)
  {
    var first := OpenSpans(w)[0];
    OpenSpanShape(w, first);
    OpeningTime(now, offset, 1, first.start);
    assert best.value <= Opening(now, offset, 1, first.start);
    forall u | now <= u && OpenAt(u, offset, w) ensures best.value <= u {
      NoOpeningMissed(now, offset, w, best, u);
    }
  }

  /** Raises on an improper window, reports that the windows never overlap exactly when no instant is
      dialable, and otherwise returns the earliest dialable instant not before now. The search over
      three days never comes back empty. */
  method NextWindowOpen(now: int, offset: int, w: Windows) returns (r: Answer)
    ensures r.BadWindow? <==> !Proper(w)
    ensures Proper(w) ==> (r.NeverOpens? <==> forall u :: !OpenAt(u, offset, w))
    ensures r.Opens? ==> EarliestOpening(now, offset, w, r.at)
  {
    var open := DialableNow(now, offset, w);
    if open.None? { return BadWindow; }
    if open.value {
      DialableMeansOpen(now, offset, w);
      return Opens(now);
    }
    var campaign, hard := Intervals(w.start, w.end), Intervals(w.hardStart, w.hardEnd);
    if campaign.None? || hard.None? { return BadWindow; }
    DialableMeansOpen(now, offset, w);
    var spans := Intersect(campaign.value, hard.value);
    if spans == [] {
      forall u ensures !OpenAt(u, offset, w) { OpenSpansMeanOpen(w, LocalTime(u, offset)); }
      return NeverOpens;
    }
    var best: Option<int> := None;
    for day := 0 to 3
      invariant BestOf(now, offset, w, best, day, 0)
    {
      for k := 0 to |spans|
        invariant BestOf(now, offset, w, best, day, k)
      {
        var opening := Opening(now, offset, day, spans[k].start);
        var candidate, nudges := opening, 0;
        while nudges < 180 && DialableNow(candidate, offset, w) != Some(true)
          invariant if nudges == 0 then candidate == opening else DialableNow(opening, offset, w) != Some(true)
        {
          candidate, nudges := candidate + MINUTE, nudges + 1;
        }
        OpeningIsOpen(now, offset, w, day, spans[k]);
        DialableMeansOpen(opening, offset, w);
        OpenSpanShape(w, spans[k]);
        OpeningTime(now, offset, day, spans[k].start);
        if candidate > now && (best.None? || candidate < best.value) {
          best := Some(candidate);
        }
      }
    }
    BestIsEarliest(now, offset, w, best);
    if best.None? { return NeverOpens; }
    return Opens(best.value);
  }
}
