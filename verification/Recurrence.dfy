/** The arithmetic of recurring jobs (agent/scheduler.py), in microseconds. */
module Recurrence {

  const SECOND := 1_000_000
  const GRACE := 300 * SECOND

  /** _advance_every for an interval job. Both operands of the division are non-negative, where
      Python's and Dafny's quotients agree. */
  function Advance(fire: int, interval: int, after: int): int
    requires interval > 0
  {
    if after < fire then fire + interval
    else fire + ((after - fire) / interval + 1) * interval
  }

  function Point(fire: int, interval: int, k: int): int {
    fire + k * interval
  }

  ghost predicate OnGrid(fire: int, interval: int, t: int) {
    exists k :: t == Point(fire, interval, k)
  }

  /** `t` is the first point of fire's grid strictly after `after`. */
  ghost predicate FirstAfter(fire: int, interval: int, after: int, t: int) {
    && OnGrid(fire, interval, t) && after < t
    && forall u :: OnGrid(fire, interval, u) && after < u ==> t <= u
  }

  lemma {:induction false} PointsApart(fire: int, interval: int, i: int, j: int)
    requires interval > 0 && i < j
    ensures Point(fire, interval, i) + interval <= Point(fire, interval, j)
    decreases j - i
  {
    assert Point(fire, interval, (j - 1) + 1) == Point(fire, interval, j - 1) + interval;
    if i + 1 < j {
      PointsApart(fire, interval, i, j - 1);
    }
  }

  /** The job lands on the first grid point after `after` exactly when it was due by then; asked about
      an earlier moment it skips its own pending boundary. */
  lemma AdvanceIsFirst(fire: int, interval: int, after: int)
    requires interval > 0
    ensures FirstAfter(fire, interval, after, Advance(fire, interval, after)) <==> fire <= after
    ensures OnGrid(fire, interval, Advance(fire, interval, after))
    ensures Advance(fire, interval, after) > after
  {
    var t := Advance(fire, interval, after);
    if after < fire {
      assert t == Point(fire, interval, 1) && fire == Point(fire, interval, 0);
      assert OnGrid(fire, interval, fire);
    } else {
      var q := (after - fire) / interval;
      assert t == Point(fire, interval, q + 1);
      assert Point(fire, interval, q) <= after < Point(fire, interval, q) + interval;
      forall u | OnGrid(fire, interval, u) && after < u ensures t <= u {
        var k :| u == Point(fire, interval, k);
        if k < q {
          PointsApart(fire, interval, k, q);
        } else if q + 1 < k {
          PointsApart(fire, interval, q + 1, k);
        }
      }
    }
  }

  /** The moment a finished run is rescheduled after: strictly past both now and the nominal boundary. */
  function RescheduleAfter(now: int, fire: int): int {
    (if now > fire then now else fire) + 1
  }

  /** A rescheduled boundary is the first one past that moment, even for a run triggered early. */
  lemma Rescheduled(fire: int, interval: int, now: int)
    requires interval > 0
    ensures var next := Advance(fire, interval, RescheduleAfter(now, fire));
            && FirstAfter(fire, interval, if now > fire then now + 1 else fire + 1, next)
            && next > fire && next > now
  {
    AdvanceIsFirst(fire, interval, RescheduleAfter(now, fire));
  }

  /** A grid point's grid is the same grid. */
  lemma SameGrid(a: int, b: int, c: int, interval: int)
    requires OnGrid(a, interval, b) && OnGrid(b, interval, c)
    ensures OnGrid(a, interval, c)
  {
    var i :| b == Point(a, interval, i);
    var j :| c == Point(b, interval, j);
    assert (i + j) * interval == i * interval + j * interval;
    assert c == Point(a, interval, i + j);
  }
}
