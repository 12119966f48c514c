/** Quiet-hours windows: recurring ranges of the time of day on a wall clock with a fixed
    offset from UTC, and the instant at which one ends. */
module QuietHours {
  import opened Domain

  const DAY: int := 86_400_000_000
  const GRACE: int := 300_000_000

  /** A window on one channel; its bounds are times of day, both inclusive. */
  datatype Window = Window(start: int, end: int, channel: Channel)
  {
    predicate Valid() {
      0 <= start < DAY && 0 <= end < DAY && start != end
    }

    /** The end as the clock is set to it: to the whole second. */
    function EndSecond(): int {
      end - end % SECOND
    }

    /** How far the open gap reaches from the end of the window to its next start. */
    function Gap(): int {
      (start - end) % DAY
    }
  }

  function TimeOfDay(t: int, offset: int): int {
    (t + offset) % DAY
  }

  /** The window spans midnight when its end is before its start. */
  predicate Covers(w: Window, time: int) {
    if w.start <= w.end then w.start <= time <= w.end
    else time >= w.start || time <= w.end
  }

  /** The next occurrence of the window's end on the local wall clock. */
  function NextWindowEnd(w: Window, after: int, offset: int): int {
    var local := after + offset;
    var candidate := local - local % DAY + w.EndSecond();
    (if candidate <= local then candidate + DAY else candidate) - offset
  }

  /** When delivery resumes after a violation at `t`. */
  function ResumeAt(w: Window, t: int, offset: int): int {
    NextWindowEnd(w, t, offset) + GRACE
  }

  /** `NextWindowEnd` is the least instant strictly later than its argument whose time of
      day is the window's end, and it is at most a day away. */
  lemma NextWindowEndIsLeast(w: Window, after: int, offset: int)
    requires w.Valid()
    ensures var r := NextWindowEnd(w, after, offset);
            && after < r <= after + DAY
            && TimeOfDay(r, offset) == w.EndSecond()
    ensures forall t :: after < t && TimeOfDay(t, offset) == w.EndSecond() ==> NextWindowEnd(w, after, offset) <= t
  {
  }

  /** On the circle of the day: a time is covered exactly when it is not strictly inside
      the gap that runs from the window's end to its start. */
  lemma CoversByGap(w: Window, time: int)
    requires w.Valid() && 0 <= time < DAY
    ensures Covers(w, time) <==> !(0 < (time - w.end) % DAY < w.Gap())
  {
  }

  /** The time of day at which delivery resumes depends on the window alone. */
  lemma ResumeTimeOfDay(w: Window, t: int, offset: int)
    requires w.Valid()
    ensures t < ResumeAt(w, t, offset) <= t + DAY + GRACE
    ensures TimeOfDay(ResumeAt(w, t, offset), offset) == (w.EndSecond() + GRACE) % DAY
  {
  }

  /** Delivery resumes outside its own window exactly when the gap is longer than the grace
      (shortened by the fraction of a second the end is cut by); for an end on the whole
      second, exactly when the gap exceeds the grace. */
  lemma ResumesOutsideItsWindow(w: Window, t: int, offset: int)
    requires w.Valid()
    ensures !Covers(w, TimeOfDay(ResumeAt(w, t, offset), offset)) <==> w.Gap() > GRACE - w.end % SECOND
    ensures w.end % SECOND == 0 ==>
              (!Covers(w, TimeOfDay(ResumeAt(w, t, offset), offset)) <==> w.Gap() > GRACE)
  {
    ResumeTimeOfDay(w, t, offset);
    var time := TimeOfDay(ResumeAt(w, t, offset), offset);
    CoversByGap(w, time);
    assert (time - w.end) % DAY == GRACE - w.end % SECOND;
  }
}
