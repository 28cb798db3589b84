# Pattern academy animators and progress store, modelled in Dafny

This project models the three small state machines of the "MAANG pattern academy"
teaching pages and proves what they promise:

- **Max-area animator** (`js/day2-animation.js`, module `ContainerAnimation`): the
  "container with most water" two-pointer scan over a fixed row of bar heights.
  Class `ContainerAnimator` holds `heights` (a constant), `left`, `right`,
  `maxWater`, `steps` and `isAnimating`. `DrawContainer` is the state update hidden
  in the drawing routine, `Advance` is one pass of the animation loop, and
  `AnimateContainer` and `ResetContainer` are the page's buttons. The object
  invariant `Valid()` keeps `0 <= left <= right <= len-1`, ties `steps` to the
  distance the pointers have covered, bounds `maxWater` by the true maximum
  `MaxArea`, and records that every pair the pointers have moved past holds no
  more than `maxWater`. From it, a finished run's
  `maxWater` is the maximum area over all pairs.
- **Cycle-detection animator** (`js/day3-animation.js`, module `CycleAnimation`):
  Floyd's tortoise and hare over a list of `nodeCount` nodes (8 on the page).
  Class `CycleAnimator` holds `slowPos`, `fastPos`, `animationStep`,
  `meetingPoint` (-1 for none), `animating` and `hasCycle`. `CycleAnimationFrame`
  is one timer tick, keeping its two-move `for` loop with `break`.
  `RunScheduledFrames` stands for the chain of ticks that the timer schedules.
  `Valid()` pins the pointers to closed forms of the step count: `k mod n` and
  `2k mod n` with the cycle, `min(k, n-1)` and `min(2k, n-1)` without it.
- **Progress store** (`js/common.js`, module `ProgressTracking`): the storage slot
  is a field of class `ProgressTracker` holding a `Slot`. A `Slot` is either
  missing, empty text, unparseable text, or a parsed JSON `Value`, whose fields
  may be ill-typed. `GetProgress` is the validating reader. `SaveProgress`,
  `MarkDayComplete` and `ResetProgress` change the slot. A storage write or
  removal may fail, which the model expresses as a nondeterministic choice.

Shared integer helpers (`Min`, `Max`, monotonicity of products) live in module `Arith`.

In four places the code does something a reader might not expect; the model follows the code:

- `animateContainer` does not clear `maxWater` when it starts, and only
  `resetContainer` does (js/day2-animation.js:121-157).
- The cycle link that the steps follow goes back to node 0, because every move
  wraps with `% nodes.length`. `cycleStartIndex` (node 2) only places the drawn
  back arrow. So with the cycle on, the pointers always meet after `nodeCount`
  frames at node 0 (js/day3-animation.js:185,196).
- The comment at js/common.js:107 says the counters accumulate totals, but the
  code keeps a running maximum. The model takes the maximum (`WithDay`,
  `WithDayAppends`).
- The `animationStep > 0` guard at js/day3-animation.js:203 always holds when it is
  reached, because the step was just incremented. The frame keeps the guard, and
  the verifier knows it to be true there.

## Model

| member | source | states |
|---|---|---|
| `ContainerAnimation.MaxArea` | js/day2-animation.js:1-3 | the goal of the animation: a value at least every pair's area `min(h[i],h[j])*(j-i)`, attained by some pair or 0 when there are fewer than two bars |
| `ContainerAnimation.MoveKeepsExplored` | js/day2-animation.js:134-139 | the pointer rule is safe: after folding in (left, right), moving `left` when `h[left] < h[right]` and `right` otherwise gives up only pairs no larger than the best so far, which is never negative |
| `ContainerAnimation.PairBelow` | js/day2-animation.js:86-97 | a pair with a bar no taller than `b` and a width at most `w` holds at most `max(0, b*w)` |
| `ContainerAnimation.ExploredAtEnd` | js/day2-animation.js:128-142 | once the pointers have met, a best value that has accounted for every passed pair and is achievable equals the maximum over all pairs |
| `ContainerAnimation.DefaultMaxArea` | js/day2-animation.js:10 | for the page's heights `[1,8,6,2,5,4,8,3,7]` the maximum container area is 49 |
| `ContainerAnimation.DefaultHeightsShape` | js/day2-animation.js:10 | the page has nine bars, and its outermost pair holds 8 |
| `ContainerAnimation.ContainerAnimator.constructor` | js/day2-animation.js:21-45 | initialisation puts `right` on the last bar and resets: the invariant holds, `left=0`, `right=len-1`, `steps=0`, not animating, `maxWater` is the outer pair's area |
| `ContainerAnimation.ContainerAnimator.DrawContainer` | js/day2-animation.js:85-110 | a frame with `left < right` sets `maxWater := max(maxWater, area(left,right))`, a frame with `left >= right` leaves it alone; it never decreases and the invariant is kept |
| `ContainerAnimation.ContainerAnimator.Advance` | js/day2-animation.js:128-140 | one loop pass: `steps` grows by 1, `right-left` shrinks by 1, `left` moves exactly when `h[left] < h[right]` (ties move `right`), the pair is folded into `maxWater`, the invariant is kept |
| `ContainerAnimation.ContainerAnimator.AnimateContainer` | js/day2-animation.js:121-149 | a no-op while animating; otherwise the pointers end equal with `steps == len-1`, `maxWater` never drops and equals `MaxArea`, and a second run without a reset changes nothing |
| `ContainerAnimation.ContainerAnimator.ResetContainer` | js/day2-animation.js:154-168 | `left=0`, `right=len-1`, `steps=0`, not animating, and `maxWater` is the area of pair (0, len-1) after the closing draw; `heights` is a constant |
| `ContainerAnimation.DefaultRun` | js/day2-animation.js:121-168 | on the page's heights, a reset shows 8, and one full run takes 8 steps and ends with `maxWater == 49` |
| `CycleAnimation.MeetsFirstAfterNodeCount` | js/day3-animation.js:185-206 | with the cycle, for `0 < k <= n`, the closed-form pointers `k mod n` and `2k mod n` coincide exactly when `k == n`, at node 0 |
| `CycleAnimation.CycleAnimator.Finished` | js/day3-animation.js:236 | the reset condition of `startAnimation`; in a valid state it holds exactly at step `n` with the cycle, and without it once `2*step >= n-1`, when the fast pointer stands on the last node |
| `CycleAnimation.CycleAnimator.constructor` | js/day3-animation.js:7-27 | the page's initial state: the cycle on, both pointers at node 0, step 0, no meeting, not animating; the invariant holds |
| `CycleAnimation.CycleAnimator.CycleAnimationFrame` | js/day3-animation.js:176-214 | a frame while not animating or after a meeting changes nothing; otherwise the step grows by exactly 1, both pointers stay in `[0, n-1]` at their closed-form positions, a meeting is recorded (node 0 at step n) only with the cycle, and the run goes on exactly while the next frame is due |
| `CycleAnimation.CycleAnimator.StartAnimation` | js/day3-animation.js:230-243 | a no-op while animating; a run that met or ran off the list is reset first, so the first frame is step 1; otherwise the run resumes at the next step |
| `CycleAnimation.CycleAnimator.RunScheduledFrames` | js/day3-animation.js:211-213 | the rescheduled frames stop: with the cycle after exactly `n` frames with `meetingPoint == 0`; without it after `(n+1)/2` frames, with the fast pointer on the last node and no meeting |
| `CycleAnimation.CycleAnimator.ResetAnimation` | js/day3-animation.js:248-259 | pointers and step back to 0, `meetingPoint=-1`, not animating; `hasCycle` and the node count are untouched |
| `CycleAnimation.CycleAnimator.ToggleCycle` | js/day3-animation.js:264-267 | flips `hasCycle` and resets, so toggling twice restores the switch |
| `CycleAnimation.DefaultCycleRun` | js/day3-animation.js:7-27 | on the page's 8 nodes with the cycle, a run ends after 8 frames with the pointers met at node 0 |
| `CycleAnimation.DefaultListRun` | js/day3-animation.js:184-200 | without the cycle, the run stops in frame 4, on the fast pointer's first move attempted from node 7, with the slow pointer at node 4 and no meeting |
| `ProgressTracking.GetProgress` | js/common.js:44-65 | every day read comes from a stored `completedDays` array and every non-zero counter from a stored number of that field; the fallbacks themselves are `UnreadableSlotGivesDefault` and `FieldsFallBackSeparately` |
| `ProgressTracking.UnreadableSlotGivesDefault` | js/common.js:44-65 | a missing or empty slot, unparseable text, a parsed `null` or any non-object value all read as `{[], 0, 0}` |
| `ProgressTracking.FieldsFallBackSeparately` | js/common.js:50-54 | for a parsed object each field falls back on its own: an array `completedDays` and number counters are kept, anything else becomes `[]` or 0 |
| `ProgressTracking.Stored` | js/common.js:75 | what `saveProgress` writes parses back to an object whose three fields are all well typed; `SaveThenGet` shows it reads back unchanged |
| `ProgressTracking.IsDayCompleted` | js/common.js:120-123 | true only for a slot holding an object with a `completedDays` array, and then exactly when the day is in it |
| `ProgressTracking.SaveThenGet` | js/common.js:73-77 | a saved record reads back unchanged, and `isDayCompleted(d)` holds exactly when `d` is among its days (js/common.js:120-123) |
| `ProgressTracking.WithDay` | js/common.js:105-109 | the new days are the old ones plus the new day, as a multiset, and neither counter decreases; order and the running maximum are in `WithDayAppends` |
| `ProgressTracking.WithDayAppends` | js/common.js:105-109 | a new day is appended at the end with the old days in order; each counter becomes the larger of the stored value and the count passed in |
| `ProgressTracking.MarkTwiceRefused` | js/common.js:99-102 | once the new record is saved the day is completed, stored exactly once, and marking it again is refused |
| `ProgressTracking.ProgressTracker.SaveProgress` | js/common.js:73-81 | returns true and stores the record, or returns false and leaves the slot as it was |
| `ProgressTracking.ProgressTracker.MarkDayComplete` | js/common.js:90-113 | with the counts defaulting to 1 and 0, returns true exactly for a number `>= 1` not yet completed, even when the save then fails; a non-number, a day below 1 or a completed day returns false and leaves the slot alone; otherwise the slot is unchanged or holds the record with the day added |
| `ProgressTracking.ProgressTracker.ResetProgress` | js/common.js:129-135 | the slot is removed, after which it reads as `{[], 0, 0}`, or on a swallowed failure it is left as it was |

## Left out

- Canvas drawing, DOM lookups, button labels and status text
  (`drawNode`, `drawArrow`, `drawCycleList`, the bar layout, `updateAnimationStatus`).
  These are presentation only and hold no state of the algorithms.
- Timers and `await`. One frame is one method call, and the chain of timed frames
  is the loop in `RunScheduledFrames` (day 3) or in `AnimateContainer` (day 2).
  Interleavings are a concurrency matter outside this sequential model. For
  example, a reset can land during an `await` of the day-2 loop, and a second
  `startAnimation` can land while a day-3 timeout is pending.
- `localStorage`, `JSON.parse` and `JSON.stringify` are foreign calls. The slot is
  an abstract datatype. Reading back a stringified record is `Stored`, and write or
  removal failures are nondeterministic.
- `toggleSolution` and `initSmoothScroll` in js/common.js: event wiring only.
- JavaScript number quirks: NaN passing the day check, fractional day numbers,
  non-number elements inside `completedDays`, and non-number counts passed to
  `markDayComplete`. Days and counts are integers here.
- The node coordinates and values in day 3, and `cycleStartIndex`. Only the number
  of nodes matters to the stepping. The model requires at least one node, because
  the page indexes `nodes[slowPos]` when it draws.
