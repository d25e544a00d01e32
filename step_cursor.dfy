/**
 * The fixed maneuver list of the navigation panel and everything derived from
 * the step index: advancing, the current step, the "i+1 of n" badge, the
 * look-ahead window and the Next button's disabled rule.
 */
module StepCursor {
  import opened Wrappers

  /** The `direction` union of a `NavigationStep`. */
  datatype Direction = Straight | Left | Right | UTurn

  /** The string literal each direction is written as. */
  function DirectionName(d: Direction): string
  {
    match d
    case Straight => "straight"
    case Left => "left"
    case Right => "right"
    case UTurn => "u-turn"
  }

  /** A `NavigationStep`; its `icon` element is presentation and is not kept. */
  datatype Step = Step(id: string, instruction: string, distance: string, direction: Direction)

  /** `mockNavigationSteps`, in order. */
  const MockNavigationSteps: seq<Step> := [
    Step("1", "Head northeast on Main Road toward City Center", "0.5 km", Straight),
    Step("2", "Turn right at the traffic light onto Heritage Street", "1.2 km", Right),
    Step("3", "Continue straight for 800m past the market", "0.8 km", Straight),
    Step("4", "Turn left onto Tourist Complex Road", "0.3 km", Left),
    Step("5", "Destination will be on your right", "50 m", Straight)
  ]

  /** `mockNavigationSteps.length`, the bound every handler and view compares against. */
  const StepCount := 5

  lemma StepCountIsLength()
    ensures |MockNavigationSteps| == StepCount
  {
  }

  /** The index after `handleNextStep` on a list of `n` steps. */
  function NextIndex(i: int, n: int): int
  {
    if i < n - 1 then i + 1 else i
  }

  /** The Next button's `disabled` rule. */
  predicate NextDisabled(i: int, n: int)
  {
    i >= n - 1
  }

  /** Next moves forward by exactly one when enabled, is a no-op exactly when disabled,
      and never leaves the range of valid indices. */
  lemma NextIndexSpec(i: int, n: int)
    requires 0 <= i < n
    ensures !NextDisabled(i, n) ==> NextIndex(i, n) == i + 1
    ensures NextDisabled(i, n) <==> NextIndex(i, n) == i
    ensures 0 <= NextIndex(i, n) < n
  {
  }

  /** The index after `k` presses of Next starting from `i`. */
  function Advance(k: nat, i: int, n: int): int
  {
    if k == 0 then i else Advance(k - 1, NextIndex(i, n), n)
  }

  /** `k` presses of Next from a valid index land on `min(i + k, n - 1)`. */
  lemma {:induction false} AdvanceLands(k: nat, i: int, n: int)
    requires 0 <= i < n
    ensures Advance(k, i, n) == if i + k < n - 1 then i + k else n - 1
  {
    if k > 0 {
      AdvanceLands(k - 1, NextIndex(i, n), n);
    }
  }

  /** From the first step, `n - 1` presses reach the last step and further presses do nothing. */
  lemma AdvanceToLast(k: nat, n: int)
    requires 0 < n && k >= n - 1
    ensures Advance(k, 0, n) == n - 1
    ensures NextDisabled(n - 1, n) && NextIndex(n - 1, n) == n - 1
  {
    AdvanceLands(k, 0, n);
  }

  /** The badge `{currentStepIndex + 1} of {mockNavigationSteps.length}`. */
  function Badge(i: int, n: int): (int, int)
  {
    (i + 1, n)
  }

  /** On the five fixed steps, four presses show "5 of 5" and a fifth changes nothing. */
  lemma FourPressesShowLastStep()
    ensures Advance(4, 0, StepCount) == 4
    ensures Badge(Advance(4, 0, StepCount), StepCount) == (5, 5)
    ensures Advance(5, 0, StepCount) == 4
  {
    AdvanceToLast(4, 5);
    AdvanceToLast(5, 5);
  }

  /** The badge of a valid index counts from one up to the number of steps. */
  lemma BadgeInRange(i: int, n: int)
    requires 0 <= i < n
    ensures 1 <= Badge(i, n).0 <= Badge(i, n).1
  {
  }

  /** `steps[i]?.…`: the step at the index, or undefined. */
  function CurrentStep(steps: seq<Step>, i: int): (r: Option<Step>)
    ensures r.Some? <==> 0 <= i < |steps|
    ensures r.Some? ==> r.value == steps[i]
  {
    if 0 <= i < |steps| then Some(steps[i]) else None
  }

  /** `Array.prototype.slice(start, end)`: negative bounds count from the end, and both
      bounds are clamped to the array. */
  function Slice<T>(s: seq<T>, start: int, end: int): (r: seq<T>)
    ensures var lo := if start < 0 then Max(|s| + start, 0) else Min(start, |s|);
            var hi := if end < 0 then Max(|s| + end, 0) else Min(end, |s|);
            |r| == Max(hi - lo, 0) && forall k :: 0 <= k < |r| ==> r[k] == s[lo + k]
  {
    var lo := if start < 0 then Max(|s| + start, 0) else Min(start, |s|);
    var hi := if end < 0 then Max(|s| + end, 0) else Min(end, |s|);
    if lo < hi then s[lo..hi] else []
  }

  function Min(a: int, b: int): int { if a < b then a else b }
  function Max(a: int, b: int): int { if a < b then b else a }

  /** The "Upcoming Steps" list: `steps.slice(i + 1, i + 4)`. */
  function Upcoming(steps: seq<Step>, i: int): seq<Step>
  {
    Slice(steps, i + 1, i + 4)
  }

  /** The upcoming steps are the (at most three) steps right after the current one, in order:
      never the current step or one before it, and as many as remain, up to three. */
  lemma UpcomingWindow(steps: seq<Step>, i: int)
    requires 0 <= i < |steps|
    ensures |Upcoming(steps, i)| == Min(3, |steps| - 1 - i)
    ensures forall k :: 0 <= k < |Upcoming(steps, i)| ==> Upcoming(steps, i)[k] == steps[i + 1 + k]
    ensures Upcoming(steps, i) == steps[i + 1..Min(i + 4, |steps|)]
  {
  }

  /** No two steps share an id. */
  predicate DistinctIds(steps: seq<Step>)
  {
    forall a, b | 0 <= a < b < |steps| :: steps[a].id != steps[b].id
  }

  lemma MockStepIdsDistinct()
    ensures DistinctIds(MockNavigationSteps)
  {
  }

  /** When ids are distinct, neither the current step nor any step before it is upcoming. */
  lemma UpcomingExcludesCurrent(steps: seq<Step>, i: int)
    requires DistinctIds(steps) && 0 <= i < |steps|
    ensures forall k | 0 <= k <= i :: steps[k] !in Upcoming(steps, i)
  {
    var u := Upcoming(steps, i);
    UpcomingWindow(steps, i);
    forall k, j | 0 <= k <= i && 0 <= j < |u|
      ensures u[j] != steps[k]
    {
      assert u[j].id == steps[i + 1 + j].id != steps[k].id;
    }
  }

  /** The kind of icon `getDirectionIcon` renders. */
  datatype Icon = ChevronLeft | ChevronRight | RotateCcw | ArrowUp

  /** `getDirectionIcon(direction)`; `None` stands for `undefined`. */
  function DirectionIcon(direction: Option<string>): (r: Icon)
    ensures r == ChevronLeft <==> direction == Some("left")
    ensures r == ChevronRight <==> direction == Some("right")
    ensures r == RotateCcw <==> direction == Some("u-turn")
  {
    match direction
    case Some("left") => ChevronLeft
    case Some("right") => ChevronRight
    case Some("u-turn") => RotateCcw
    case _ => ArrowUp
  }

  /** Each direction of a step gets its own icon; only "straight" (and anything unknown)
      falls to the up arrow. */
  lemma DirectionIconsDistinct(d: Direction, e: Direction)
    ensures DirectionIcon(Some(DirectionName(d))) == DirectionIcon(Some(DirectionName(e))) <==> d == e
    ensures DirectionIcon(Some(DirectionName(d))) == ArrowUp <==> d == Straight
  {
  }
}
