/**
 * The tortoise-and-hare animation of js/day3-animation.js: a fixed list of nodes,
 * a slow pointer that moves one node per frame and a fast pointer that moves two,
 * with a switch that makes the last node link back into the list.
 */
module CycleAnimation {
  import opened Arith

  /** The page's list has eight nodes. */
  const DefaultNodeCount: int := 8

  /**
   * Where the slow pointer stands after k frames of a run that started at node 0:
   * with the cycle every move wraps modulo n, without it the pointer stops at the last node.
   */
  function SlowAfter(n: int, hasCycle: bool, k: int): int
    requires 1 <= n && 0 <= k
  {
    if hasCycle then k % n else Min(k, n - 1)
  }

  /** Where the fast pointer stands after k frames: two moves per frame. */
  function FastAfter(n: int, hasCycle: bool, k: int): int
    requires 1 <= n && 0 <= k
  {
    if hasCycle then (2 * k) % n else Min(2 * k, n - 1)
  }

  /** Whether a run that has made k frames schedules another one. */
  predicate RunsOn(n: int, hasCycle: bool, k: int)
  {
    if hasCycle then k < n else 2 * k < n
  }

  lemma ModSmall(a: int, n: int)
    requires 0 <= a < n
    ensures a % n == a
  {
  }

  lemma ModOnce(a: int, n: int)
    requires 1 <= n <= a < 2 * n
    ensures a % n == a - n
  {
    assert a == 1 * n + (a - n);
  }

  /** Euclidean division is unique: a == q * n + r with 0 <= r < n fixes the remainder. */
  lemma ModUnique(a: int, n: int, q: int, r: int)
    requires 1 <= n && 0 <= r < n && a == q * n + r
    ensures a % n == r
  {
    var q', r' := a / n, a % n;
    assert a == q' * n + r';
    var d := q - q';
    assert d * n == q * n - q' * n;
    assert d * n == r' - r;
    if 1 <= d {
      MulLe(1, d, n, n);
    } else if d <= -1 {
      MulLe(1, -d, n, n);
    }
  }

  lemma ModSucc(a: int, n: int)
    requires 0 <= a && 1 <= n
    ensures (a % n + 1) % n == (a + 1) % n
  {
    var q, r := a / n, a % n;
    if r + 1 < n {
      ModUnique(a + 1, n, q, r + 1);
    } else {
      assert a + 1 == (q + 1) * n + 0;
      ModUnique(a + 1, n, q + 1, 0);
    }
  }

  /**
   * With the cycle, the two pointers first stand on the same node after exactly n
   * frames, and they meet at node 0.
   */
  lemma MeetsFirstAfterNodeCount(n: int, k: int)
    requires 1 <= n && 0 < k <= n
    ensures SlowAfter(n, true, k) == FastAfter(n, true, k) <==> k == n
    ensures k == n ==> SlowAfter(n, true, k) == 0 && FastAfter(n, true, k) == 0
  {
    if k < n {
      ModSmall(k, n);
      if 2 * k < n {
        ModSmall(2 * k, n);
      } else {
        ModOnce(2 * k, n);
      }
    } else {
      assert k % n == 0;
      assert (2 * k) % n == 0;
    }
  }

  /** The module-level cycleAnimationState of the page, with its canvas and node layout left out. */
  class CycleAnimator {
    const nodeCount: int
    var animating: bool
    var hasCycle: bool
    var slowPos: int
    var fastPos: int
    var animationStep: int
    var meetingPoint: int

    ghost predicate Valid()
      reads this
    {
      && 1 <= nodeCount
      && 0 <= animationStep
      && 0 <= slowPos < nodeCount && 0 <= fastPos < nodeCount
      && slowPos == SlowAfter(nodeCount, hasCycle, animationStep)
      && fastPos == FastAfter(nodeCount, hasCycle, animationStep)
      && (hasCycle ==>
            animationStep <= nodeCount && meetingPoint == (if animationStep == nodeCount then 0 else -1))
      && (!hasCycle ==> 2 * animationStep <= nodeCount + 1 && meetingPoint == -1)
      && (animating ==> RunsOn(nodeCount, hasCycle, animationStep))
    }

    /**
     * The condition under which startAnimation resets first: the last run met, or ran
     * off the list. In a valid state that is step n with the cycle, and without it the
     * step at which the fast pointer has reached the last node.
     */
    predicate Finished(): (f: bool)
      reads this
      ensures Valid() ==>
        (f <==> if hasCycle then animationStep == nodeCount else nodeCount - 1 <= 2 * animationStep)
    {
      meetingPoint != -1 || (!hasCycle && fastPos >= nodeCount - 1)
    }

    /** The page's initial state: the cycle is on and nothing has run. */
    constructor (n: int)
      requires 1 <= n
      ensures Valid() && nodeCount == n && hasCycle && !animating
      ensures slowPos == 0 && fastPos == 0 && animationStep == 0 && meetingPoint == -1
    {
      nodeCount := n;
      animating, hasCycle := false, true;
      slowPos, fastPos, animationStep, meetingPoint := 0, 0, 0, -1;
    }

    /**
     * cycleAnimationFrame: one step of the algorithm. A frame while not running, or
     * after the pointers met, does nothing; otherwise the step count grows by one and
     * the run goes on exactly while RunsOn holds.
     */
    method CycleAnimationFrame()
      requires Valid()
      modifies this`animationStep, this`slowPos, this`fastPos, this`meetingPoint, this`animating
      ensures Valid()
      ensures !old(animating) || old(meetingPoint) != -1 ==> unchanged(this)
      ensures old(animating) && old(meetingPoint) == -1 ==>
        animationStep == old(animationStep) + 1 && animating == RunsOn(nodeCount, hasCycle, animationStep)
    {
      if !animating || meetingPoint != -1 {
        return;
      }
      animationStep := animationStep + 1;
      ghost var k := animationStep;
      assert 0 < k <= nodeCount;

      if hasCycle || slowPos < nodeCount - 1 {
        if hasCycle {
          ModSucc(k - 1, nodeCount);
        } else {
          ModSmall(k, nodeCount);
        }
        slowPos := (slowPos + 1) % nodeCount;
      }
      assert slowPos == SlowAfter(nodeCount, hasCycle, k);
      ghost var slow := slowPos;

      for i := 0 to 2
        invariant animating && animationStep == k && slowPos == slow && meetingPoint == -1
        invariant 0 <= fastPos < nodeCount
        invariant hasCycle ==> fastPos == (2 * (k - 1) + i) % nodeCount
        invariant !hasCycle ==> fastPos == Min(2 * (k - 1), nodeCount - 1) + i
      {
        if !hasCycle && fastPos >= nodeCount - 1 {
          animating := false;
          break;
        } else if hasCycle {
          ModSucc(2 * (k - 1) + i, nodeCount);
          fastPos := (fastPos + 1) % nodeCount;
        } else {
          fastPos := fastPos + 1;
        }
      }

      if hasCycle {
        MeetsFirstAfterNodeCount(nodeCount, k);
      }
      if hasCycle && slowPos == fastPos && animationStep > 0 {
        meetingPoint := slowPos;
        animating := false;
      }
    }

    /**
     * startAnimation: a no-op while running; a run that met or ran off the list is
     * reset first; then the first frame is taken.
     */
    method StartAnimation()
      requires Valid()
      modifies this`animationStep, this`slowPos, this`fastPos, this`meetingPoint, this`animating
      ensures Valid()
      ensures old(animating) ==> unchanged(this)
      ensures !old(animating) ==>
        animationStep == (if old(Finished()) then 1 else old(animationStep) + 1)
      ensures !old(animating) ==> animating == RunsOn(nodeCount, hasCycle, animationStep)
    {
      if animating {
        return;
      }
      if Finished() {
        ResetAnimation();
      }
      animating := true;
      CycleAnimationFrame();
    }

    /**
     * The frames that the timer keeps scheduling while a run is going: they stop at
     * the meeting after nodeCount frames with the cycle, and one frame after the fast
     * pointer reaches the last node without it.
     */
    method RunScheduledFrames()
      requires Valid()
      modifies this`animationStep, this`slowPos, this`fastPos, this`meetingPoint, this`animating
      ensures Valid() && !animating
      ensures !old(animating) ==> unchanged(this)
      ensures old(animating) && hasCycle ==>
        animationStep == nodeCount && meetingPoint == 0 && slowPos == 0 && fastPos == 0
      ensures old(animating) && !hasCycle ==>
        animationStep == (nodeCount + 1) / 2 && meetingPoint == -1 && fastPos == nodeCount - 1
        && slowPos == Min((nodeCount + 1) / 2, nodeCount - 1)
    {
      while animating
        invariant Valid()
        invariant !old(animating) ==> unchanged(this)
        invariant old(animating) && !animating ==> !RunsOn(nodeCount, hasCycle, animationStep)
        decreases nodeCount - animationStep
      {
        CycleAnimationFrame();
      }
      if old(animating) && hasCycle {
        MeetsFirstAfterNodeCount(nodeCount, animationStep);
      }
    }

    /** resetAnimation: both pointers back to node 0, no meeting, not running; the cycle switch is kept. */
    method ResetAnimation()
      requires 1 <= nodeCount
      modifies this`animationStep, this`slowPos, this`fastPos, this`meetingPoint, this`animating
      ensures Valid()
      ensures !animating && slowPos == 0 && fastPos == 0 && animationStep == 0 && meetingPoint == -1
    {
      animating := false;
      slowPos := 0;
      fastPos := 0;
      animationStep := 0;
      meetingPoint := -1;
    }

    /** toggleCycle: flips the cycle switch and resets, so two toggles restore the switch. */
    method ToggleCycle()
      requires Valid()
      modifies this
      ensures Valid() && hasCycle == !old(hasCycle)
      ensures !animating && slowPos == 0 && fastPos == 0 && animationStep == 0 && meetingPoint == -1
    {
      hasCycle := !hasCycle;
      ResetAnimation();
    }
  }

  /** The page with the cycle on: a run ends after eight frames with the pointers met at node 0. */
  method DefaultCycleRun() returns (frames: int, meeting: int)
    ensures frames == 8 && meeting == 0
  {
    var a := new CycleAnimator(DefaultNodeCount);
    a.StartAnimation();
    a.RunScheduledFrames();
    frames, meeting := a.animationStep, a.meetingPoint;
  }

  /**
   * The page with the cycle toggled off: the run stops in frame 4, on the fast
   * pointer's first move attempted from node 7, with the slow pointer at node 4.
   */
  method DefaultListRun() returns (frames: int, slow: int, fast: int, meeting: int)
    ensures frames == 4 && slow == 4 && fast == 7 && meeting == -1
  {
    var a := new CycleAnimator(DefaultNodeCount);
    a.ToggleCycle();
    a.StartAnimation();
    a.RunScheduledFrames();
    frames, slow, fast, meeting := a.animationStep, a.slowPos, a.fastPos, a.meetingPoint;
  }
}
