/**
 * The two-pointer "container with most water" animation of js/day2-animation.js:
 * a fixed row of bar heights, two pointers that walk towards each other one step
 * per frame, and the best area seen so far.
 */
module ContainerAnimation {
  import opened Arith

  /** The bar heights the page animates. */
  const DefaultHeights: seq<int> := [1, 8, 6, 2, 5, 4, 8, 3, 7]

  /** The water held between bars i and j: the shorter bar times their distance. */
  function Area(h: seq<int>, i: int, j: int): int
    requires 0 <= i < j < |h|
  {
    Min(h[i], h[j]) * (j - i)
  }

  /** The largest area of a pair (i, j) with i < k, or 0 when there is none. */
  function BestEndingAt(h: seq<int>, j: int, k: int): (m: int)
    requires 0 <= k <= j < |h|
    ensures 0 <= m
    ensures forall i :: 0 <= i < k ==> Area(h, i, j) <= m
    ensures m == 0 || exists i :: 0 <= i < k && Area(h, i, j) == m
    decreases k
  {
    if k == 0 then 0 else Max(BestEndingAt(h, j, k - 1), Area(h, k - 1, j))
  }

  /** The largest area of a pair of bars among the first n, or 0 when there is none. */
  function BestBelow(h: seq<int>, n: int): (m: int)
    requires 0 <= n <= |h|
    ensures 0 <= m
    ensures forall i, j :: 0 <= i < j < n ==> Area(h, i, j) <= m
    ensures m == 0 || exists i, j :: 0 <= i < j < n && Area(h, i, j) == m
    decreases n
  {
    if n == 0 then 0 else Max(BestBelow(h, n - 1), BestEndingAt(h, n - 1, n - 1))
  }

  /** The goal of the animation: the largest container over all pairs of bars (0 if fewer than two). */
  function MaxArea(h: seq<int>): (m: int)
    ensures 0 <= m
    ensures forall i, j :: 0 <= i < j < |h| ==> Area(h, i, j) <= m
    ensures m == 0 || exists i, j :: 0 <= i < j < |h| && Area(h, i, j) == m
  {
    BestBelow(h, |h|)
  }

  /** What maxWater holds after a reset: the area of the outermost pair, never below 0. */
  function OpeningWater(h: seq<int>): int
  {
    if 2 <= |h| then Max(0, Area(h, 0, |h| - 1)) else 0
  }

  /** Every pair that the pointers have moved past holds no more water than best. */
  ghost predicate Explored(h: seq<int>, left: int, right: int, best: int)
  {
    forall i, j :: 0 <= i < j < |h| && (i < left || right < j) ==> Area(h, i, j) <= best
  }

  /**
   * The pointer rule loses nothing: once (left, right) is accounted for, every pair
   * given up by moving the shorter bar's pointer inward is no larger. A pair with
   * a negative bar holds a negative area, below the best, which is never negative.
   */
  lemma MoveKeepsExplored(h: seq<int>, left: int, right: int, best: int)
    requires 0 <= left < right < |h| && 0 <= best
    requires Explored(h, left, right, best) && Area(h, left, right) <= best
    ensures h[left] < h[right] ==> Explored(h, left + 1, right, best)
    ensures h[right] <= h[left] ==> Explored(h, left, right - 1, best)
  {
    if h[left] < h[right] {
      forall i, j | 0 <= i < j < |h| && (i < left + 1 || right < j)
        ensures Area(h, i, j) <= best
      {
        if i == left && j <= right {
          PairBelow(h, i, j, h[left], right - left);
        }
      }
    } else {
      forall i, j | 0 <= i < j < |h| && (i < left || right - 1 < j)
        ensures Area(h, i, j) <= best
      {
        if j == right && left <= i {
          PairBelow(h, i, j, h[right], right - left);
        }
      }
    }
  }

  /** A pair with a bar of height at most b and width at most w holds at most max(0, b * w). */
  lemma PairBelow(h: seq<int>, i: int, j: int, b: int, w: int)
    requires 0 <= i < j < |h| && (h[i] <= b || h[j] <= b) && j - i <= w
    ensures Area(h, i, j) <= Max(0, b * w)
  {
  }

  /** When the pointers have met, a best that explored every pair is the maximum. */
  lemma ExploredAtEnd(h: seq<int>, left: int, right: int, best: int)
    requires right <= left
    requires Explored(h, left, right, best) && 0 <= best <= MaxArea(h)
    ensures best == MaxArea(h)
  {
    var m := MaxArea(h);
    if m != 0 {
      var i, j :| 0 <= i < j < |h| && Area(h, i, j) == m;
      assert i < left || right < j;
    }
  }

  /** For the page's heights the best container is bars 1 and 8: min(8, 7) * 7 == 49. */
  lemma DefaultMaxArea()
    ensures MaxArea(DefaultHeights) == 49
  {
    var h := DefaultHeights;
    forall k | 0 <= k < |h| ensures h[k] <= 8 {
      assert k == 0 || k == 1 || k == 2 || k == 3 || k == 4 || k == 5 || k == 6 || k == 7 || k == 8;
    }
    forall i, j | 0 <= i < j < |h| ensures Area(h, i, j) <= 49 {
      if j - i <= 6 {
        PairBelow(h, i, j, 8, 6);
      } else {
        assert (i == 0 || i == 1) && (j == 7 || j == 8);
      }
    }
    assert Area(h, 1, 8) == 49;
    var m := MaxArea(h);
    if m != 0 {
      var i, j :| 0 <= i < j < |h| && Area(h, i, j) == m;
    }
  }

  /** The page has nine bars and its outermost pair, bars 0 and 8, holds min(1, 7) * 8 == 8. */
  lemma DefaultHeightsShape()
    ensures |DefaultHeights| == 9
    ensures OpeningWater(DefaultHeights) == 8
  {
  }

  /** The module-level animationState of the page, with its canvas left out. */
  class ContainerAnimator {
    const heights: seq<int>
    var left: int
    var right: int
    var maxWater: int
    var steps: int
    var isAnimating: bool

    ghost predicate Valid()
      reads this
    {
      && 0 <= left <= right + 1 <= |heights|
      && (right < left ==> heights == [])
      && steps == |heights| - 1 - (right - left)
      && 0 <= maxWater <= MaxArea(heights)
      && Explored(heights, left, right, maxWater)
    }

    /** initContainerAnimation: right goes to the last bar, then the page is reset. */
    constructor (h: seq<int>)
      ensures Valid() && heights == h
      ensures left == 0 && right == |h| - 1 && steps == 0 && !isAnimating
      ensures maxWater == OpeningWater(h)
    {
      heights := h;
      left, right, maxWater, steps, isAnimating := 0, 0, 0, 0, false;
      new;
      right := |heights| - 1;
      ResetContainer();
    }

    /** The state update inside drawContainer: a frame with left < right folds its area into maxWater. */
    method DrawContainer()
      requires Valid()
      modifies this`maxWater
      ensures Valid()
      ensures left < right ==> maxWater == Max(old(maxWater), Area(heights, left, right))
      ensures right <= left ==> maxWater == old(maxWater)
      ensures old(maxWater) <= maxWater
    {
      if left < right {
        var area := Min(heights[left], heights[right]) * (right - left);
        assert area == Area(heights, left, right) <= MaxArea(heights);
        maxWater := Max(maxWater, area);
      }
    }

    /** One pass of the loop in animateContainer: draw, count the step, move the shorter side inward. */
    method Advance()
      requires Valid() && left < right
      modifies this`left, this`right, this`maxWater, this`steps
      ensures Valid()
      ensures steps == old(steps) + 1 && right - left == old(right - left) - 1
      ensures heights[old(left)] < heights[old(right)] ==> left == old(left) + 1 && right == old(right)
      ensures heights[old(right)] <= heights[old(left)] ==> left == old(left) && right == old(right) - 1
      ensures maxWater == Max(old(maxWater), Area(heights, old(left), old(right)))
    {
      DrawContainer();
      steps := steps + 1;
      MoveKeepsExplored(heights, left, right, maxWater);
      if heights[left] < heights[right] {
        left := left + 1;
      } else {
        right := right - 1;
      }
    }

    /**
     * animateContainer: a no-op while a run is in progress; otherwise runs the
     * pointers together, draws the last frame and clears the flag.
     */
    method AnimateContainer()
      requires Valid()
      modifies this`left, this`right, this`maxWater, this`steps, this`isAnimating
      ensures Valid()
      ensures old(isAnimating) ==> unchanged(this)
      ensures !old(isAnimating) ==> !isAnimating
      ensures !old(isAnimating) ==> old(left) <= left && right <= old(right) && old(maxWater) <= maxWater
      ensures !old(isAnimating) && heights != [] ==> left == right && steps == |heights| - 1
      ensures !old(isAnimating) ==> maxWater == MaxArea(heights)
      ensures old(right) <= old(left) ==>
        left == old(left) && right == old(right) && steps == old(steps) && maxWater == old(maxWater)
    {
      if isAnimating {
        return;
      }
      isAnimating := true;
      while left < right
        invariant Valid() && isAnimating
        invariant old(left) <= left && right <= old(right) && old(maxWater) <= maxWater
        invariant old(right) <= old(left) ==> steps == old(steps) && maxWater == old(maxWater)
        decreases right - left
      {
        Advance();
      }
      DrawContainer();
      isAnimating := false;
      ExploredAtEnd(heights, left, right, maxWater);
    }

    /** resetContainer: pointers back to the ends, counters cleared, then one frame drawn. */
    method ResetContainer()
      modifies this`left, this`right, this`maxWater, this`steps, this`isAnimating
      ensures Valid()
      ensures left == 0 && right == |heights| - 1 && steps == 0 && !isAnimating
      ensures maxWater == OpeningWater(heights)
    {
      left := 0;
      right := |heights| - 1;
      maxWater := 0;
      steps := 0;
      isAnimating := false;
      DrawContainer();
    }
  }

  /** The page as loaded: reset shows 8, one full run takes 8 steps and finds 49. */
  method DefaultRun() returns (opening: int, best: int, steps: int)
    ensures opening == 8 && best == 49 && steps == 8
  {
    DefaultHeightsShape();
    DefaultMaxArea();
    var a := new ContainerAnimator(DefaultHeights);
    opening := a.maxWater;
    a.AnimateContainer();
    best, steps := a.maxWater, a.steps;
  }
}
