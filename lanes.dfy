// One frame of pillar scrolling for one lane (Engine::update).
//
// Each pillar is moved left by the speed; a pillar whose centre has passed
// minus half its width is recycled: it is put 300 pixels behind the pillar on
// its left in the lane, where the left of index 0 is the last index. The loop
// in the engine runs in place and in index order, so when index i > 0 is
// recycled its left neighbour has already been moved (and perhaps recycled)
// this frame, while when index 0 is recycled the last pillar has not been
// moved yet. `Scrolled` states that order explicitly, index by index.
module Lanes {
  import opened Geometry

  /** Gap left between a recycled pillar and the pillar it is put behind. */
  const Spacing: real := 300.0

  function Moved(b: Box, speed: real): Box
  {
    b.(x := b.x - speed)
  }

  /** The recycle test: the centre is strictly left of minus half the width. */
  predicate OffScreen(b: Box)
  {
    b.x < -(b.w / 2.0)
  }

  /** `b` put `Spacing` to the right of `left`'s right edge. */
  function PlacedAfter(b: Box, left: Box): Box
  {
    b.(x := left.x + left.w / 2.0 + b.w / 2.0 + Spacing)
  }

  /** Index of the left neighbour: the last pillar for index 0. The engine
      writes this as a comparison of `unique_ptr`s with element 0, which holds
      exactly at index 0 because every element owns a distinct pillar. */
  function LeftIndex(n: nat, i: nat): (j: nat)
    requires i < n
    ensures j < n
    ensures i > 0 ==> j + 1 == i
    ensures i == 0 ==> j == n - 1
  {
    if i == 0 then n - 1 else i - 1
  }

  /** A pillar after its move and, if it went off-screen, its recycle. */
  function Stepped(b: Box, left: Box, speed: real): Box
  {
    var m := Moved(b, speed);
    if OffScreen(m) then PlacedAfter(m, left) else m
  }

  /** The left neighbour of index i as the in-place loop reads it, given the
      i pillars already stepped (`done`): a stepped pillar for i > 0, the
      not-yet-moved last pillar for i == 0, and the just-moved pillar itself
      when the lane holds a single pillar. */
  function NeighbourAsRead(lane: seq<Box>, speed: real, done: seq<Box>, i: nat): Box
    requires i < |lane| && |done| == i
  {
    if i > 0 then done[i - 1]
    else if |lane| > 1 then lane[|lane| - 1]
    else Moved(lane[0], speed)
  }

  /** The first k pillars of the lane after one frame, in loop order. */
  function Scrolled(lane: seq<Box>, speed: real, k: nat): (r: seq<Box>)
    requires k <= |lane|
    ensures |r| == k
  {
    if k == 0 then []
    else
      var done := Scrolled(lane, speed, k - 1);
      done + [Stepped(lane[k - 1], NeighbourAsRead(lane, speed, done, k - 1), speed)]
  }

  /** The whole lane after one frame. */
  function Scroll(lane: seq<Box>, speed: real): (r: seq<Box>)
    ensures |r| == |lane|
  {
    Scrolled(lane, speed, |lane|)
  }

  /** How many of the first k pillars recycle this frame. */
  function RecycleCount(lane: seq<Box>, speed: real, k: nat): (n: nat)
    requires k <= |lane|
    ensures n <= k
  {
    if k == 0 then 0
    else RecycleCount(lane, speed, k - 1) + (if OffScreen(Moved(lane[k - 1], speed)) then 1 else 0)
  }

  /** Stepping later pillars never changes earlier ones. */
  lemma {:induction false} ScrolledPrefix(lane: seq<Box>, speed: real, j: nat, k: nat)
    requires j <= k <= |lane|
    ensures Scrolled(lane, speed, k)[..j] == Scrolled(lane, speed, j)
    decreases k
  {
    if j < k {
      ScrolledPrefix(lane, speed, j, k - 1);
      var done := Scrolled(lane, speed, k - 1);
      assert Scrolled(lane, speed, k)[..k - 1] == done;
    }
  }

  /** Scrolling changes only x: every pillar keeps its y, size and fill. */
  lemma {:induction false} ScrolledKeepsShape(lane: seq<Box>, speed: real, k: nat)
    requires k <= |lane|
    ensures forall i :: 0 <= i < k ==> Scrolled(lane, speed, k)[i] == lane[i].(x := Scrolled(lane, speed, k)[i].x)
  {
    if k > 0 {
      ScrolledKeepsShape(lane, speed, k - 1);
      var done := Scrolled(lane, speed, k - 1);
      var r := Scrolled(lane, speed, k);
      forall i | 0 <= i < k
        ensures r[i] == lane[i].(x := r[i].x)
      {
        if i < k - 1 {
          assert r[i] == done[i];
        }
      }
    }
  }

  lemma ScrollKeepsShape(lane: seq<Box>, speed: real)
    ensures |Scroll(lane, speed)| == |lane|
    ensures forall i :: 0 <= i < |lane| ==> Scroll(lane, speed)[i] == lane[i].(x := Scroll(lane, speed)[i].x)
  {
    ScrolledKeepsShape(lane, speed, |lane|);
  }

  /** The recycle rule for one pillar i: it keeps its moved x unless the moved
      x is strictly left of minus half its width, and then it is put
      `Spacing` past the right edge of its left neighbour as the loop reads
      it: for i > 0 the neighbour's new position, for i == 0 the last
      pillar's position from before this frame. */
  lemma ScrollRecycleRule(lane: seq<Box>, speed: real, i: nat)
    requires i < |lane|
    ensures var r := Scroll(lane, speed);
            var m := Moved(lane[i], speed);
            var left := if i > 0 then r[i - 1]
                        else if |lane| > 1 then lane[|lane| - 1]
                        else m;
            (!OffScreen(m) ==> r[i].x == lane[i].x - speed) &&
            (OffScreen(m) ==> r[i].x == left.x + left.w / 2.0 + lane[i].w / 2.0 + Spacing
                              && Left(r[i]) == Right(left) + Spacing)
  {
    var r := Scroll(lane, speed);
    ScrolledPrefix(lane, speed, i + 1, |lane|);
    assert r[i] == Scrolled(lane, speed, i + 1)[i];
    if i > 0 {
      ScrolledPrefix(lane, speed, i, |lane|);
      assert r[i - 1] == Scrolled(lane, speed, i)[i - 1];
    }
  }

  /** Two lanes whose pillars agree on x and width stay in step: they recycle
      the same pillars and keep agreeing on x. */
  lemma {:induction false} ScrolledInSync(a: seq<Box>, b: seq<Box>, speed: real, k: nat)
    requires |a| == |b| && k <= |a|
    requires forall i :: 0 <= i < |a| ==> a[i].x == b[i].x && a[i].w == b[i].w
    ensures RecycleCount(a, speed, k) == RecycleCount(b, speed, k)
    ensures forall i :: 0 <= i < k ==> Scrolled(a, speed, k)[i].x == Scrolled(b, speed, k)[i].x
  {
    if k > 0 {
      ScrolledInSync(a, b, speed, k - 1);
      ScrolledKeepsShape(a, speed, k - 1);
      ScrolledKeepsShape(b, speed, k - 1);
      var ra, rb := Scrolled(a, speed, k), Scrolled(b, speed, k);
      forall i | 0 <= i < k
        ensures ra[i].x == rb[i].x
      {
        if i < k - 1 {
          assert ra[i] == Scrolled(a, speed, k - 1)[i];
          assert rb[i] == Scrolled(b, speed, k - 1)[i];
        }
      }
    }
  }

  lemma ScrollInSync(a: seq<Box>, b: seq<Box>, speed: real)
    requires |a| == |b|
    requires forall i :: 0 <= i < |a| ==> a[i].x == b[i].x && a[i].w == b[i].w
    ensures RecycleCount(a, speed, |a|) == RecycleCount(b, speed, |b|)
    ensures forall i :: 0 <= i < |a| ==> Scroll(a, speed)[i].x == Scroll(b, speed)[i].x
  {
    ScrolledInSync(a, b, speed, |a|);
  }

  /** The recycle count is the number of pillars whose moved x fails the
      on-screen test: with no pillar past the edge, nothing recycles, and
      with every pillar past it, every one does. */
  lemma {:induction false} RecycleCountBounds(lane: seq<Box>, speed: real, k: nat)
    requires k <= |lane|
    ensures (forall i :: 0 <= i < k ==> !OffScreen(Moved(lane[i], speed))) ==> RecycleCount(lane, speed, k) == 0
    ensures (forall i :: 0 <= i < k ==> OffScreen(Moved(lane[i], speed))) ==> RecycleCount(lane, speed, k) == k
    ensures (exists i :: 0 <= i < k && OffScreen(Moved(lane[i], speed))) ==> RecycleCount(lane, speed, k) > 0
  {
    if k > 0 {
      RecycleCountBounds(lane, speed, k - 1);
    }
  }

  /** The recycle test is strict: a pillar whose moved centre is exactly at
      minus half its width stays, and one any further left recycles. */
  lemma RecycleBoundary(b: Box, speed: real)
    ensures b.x - speed == -(b.w / 2.0) ==> !OffScreen(Moved(b, speed))
    ensures b.x - speed < -(b.w / 2.0) ==> OffScreen(Moved(b, speed))
  {
  }
}
