/**
 Animated values: a value jumps, eases or springs to its target. Time and position are
 real numbers here; a spring is given by the square root of its stiffness.
 */
module Motion {

  const SPRING_SUBSTEPS := 4
  const LONGEST_STEP := 0.1
  const SETTLE_SPEED_RATIO := 10.0

  datatype Easing = Linear | EaseIn | EaseOut | EaseInOut

  /** `root * root` is the stiffness of the spring. */
  datatype Kind = Jump | Ease(seconds: real, easing: Easing) | Spring(root: real)

  function Abs(x: real): real {
    if x < 0.0 then -x else x
  }

  function Min(a: real, b: real): real {
    if a < b then a else b
  }

  lemma Times(a: real, b: real)
    requires a >= 0.0 && b >= 0.0
    ensures a * b >= 0.0
  {
  }

  lemma Grows(a: real, b: real)
    requires a > 0.0 && b > 0.0
    ensures a * b > 0.0
  {
  }

  lemma Square(a: real)
    ensures a * a >= 0.0
  {
    if a >= 0.0 { Times(a, a); } else { Times(-a, -a); assert -a * -a == a * a; }
  }

  // The spring, seen from its target.

  /** Where the value is, measured from the target, and how fast it moves. */
  datatype Swing = Swing(offset: real, velocity: real)

  /** The acceleration: back to the target, and damped just enough not to swing. */
  function Pull(root: real, offset: real, velocity: real): real {
    -(root * root) * offset - 2.0 * root * velocity
  }

  /** One substep: the velocity first, then the position with the new velocity. */
  function Pulled(offset: real, velocity: real, pull: real, elapsed: real): Swing {
    var next := velocity + pull * elapsed;
    Swing(offset + next * elapsed, next)
  }

  function Substep(s: Swing, root: real, elapsed: real): Swing {
    Pulled(s.offset, s.velocity, Pull(root, s.offset, s.velocity), elapsed)
  }

  function Substeps(s: Swing, root: real, elapsed: real, count: nat): Swing {
    if count == 0 then s else Substep(Substeps(s, root, elapsed, count - 1), root, elapsed)
  }

  /** The speed towards the target, as the distance at which the spring just stops there. */
  function Lag(s: Swing, root: real): real
    requires root > 0.0
  {
    -s.velocity / root
  }

  /** The length of a substep in the spring's own unit of time. */
  function Reach(root: real, elapsed: real): real {
    root * elapsed
  }

  predicate SmallStep(reach: real) {
    0.0 <= reach && reach * reach + reach <= 1.0
  }

  /** The cone: moving towards the target, and not too fast to stop there. */
  predicate InCone(s: Swing, root: real)
    requires root > 0.0
  {
    0.0 <= Lag(s, root) <= s.offset || s.offset <= Lag(s, root) <= 0.0
  }

  /** Still on the side it came from, and no further from the target. */
  predicate Closer(next: Swing, s: Swing) {
    0.0 <= next.offset <= s.offset || s.offset <= next.offset <= 0.0
  }

  /** The lag after a substep. */
  function NextLag(x: real, u: real, q: real): real {
    u + q * (x - 2.0 * u)
  }

  /** The substep in units where the spring has stiffness one. */
  lemma SubstepScaled(s: Swing, root: real, elapsed: real)
    requires root > 0.0
    ensures var next, lag := Substep(s, root, elapsed), NextLag(s.offset, Lag(s, root), Reach(root, elapsed));
            Lag(next, root) == lag && next.offset == s.offset - Reach(root, elapsed) * lag
  {
    var x, u := s.offset, Lag(s, root);
    var lag := NextLag(x, u, root * elapsed);
    assert s.velocity == -root * u;
    ScaledPush(x, u, root, elapsed);
    assert Substep(s, root, elapsed).velocity == -root * lag;
    ScaledWay(root, elapsed, lag);
    Undo(root, lag);
  }

  lemma ScaledPush(x: real, u: real, root: real, elapsed: real)
    ensures -root * u + (-(root * root) * x - 2.0 * root * (-root * u)) * elapsed ==
            -root * NextLag(x, u, root * elapsed)
  {
    calc {
      -root * u + (-(root * root) * x - 2.0 * root * (-root * u)) * elapsed;
      -root * u + root * elapsed * (root * (2.0 * u - x));
      -root * (u + root * elapsed * (x - 2.0 * u));
    }
  }

  lemma ScaledWay(root: real, elapsed: real, lag: real)
    ensures -root * lag * elapsed == -(root * elapsed * lag)
  {
  }

  lemma Undo(root: real, lag: real)
    requires root > 0.0
    ensures -(-root * lag) / root == lag
  {
    assert -(-root * lag) == lag * root;
  }

  /** The cone in those units: kept, the distance never grows, and up to one half it shrinks by q squared. */
  lemma ScaledCone(x: real, u: real, q: real)
    requires 0.0 <= u <= x && SmallStep(q)
    ensures var w := NextLag(x, u, q);
            && 0.0 <= w <= x - q * w <= x
            && (q <= 0.5 ==> x - q * w <= x - q * q * x)
  {
    var w := u + q * (x - 2.0 * u);
    var y := x - u;
    Times(q, q);
    assert w == (1.0 - q) * u + q * y;
    Times(1.0 - q, u);
    Times(q, y);
    Times(1.0 - q - q * q, y);
    Times(q * q, u);
    assert x - q * w - w == (1.0 - q - q * q) * y + q * q * u by {
      assert q * w == (q - q * q) * u + q * q * y;
    }
    Times(q, w);
    if q <= 0.5 {
      Times(1.0 - 2.0 * q, u);
      assert w - q * x == (1.0 - 2.0 * q) * u;
      Times(q, (1.0 - 2.0 * q) * u);
      assert q * w - q * q * x == q * (w - q * x);
    }
  }

  /** The bound is exact: the spring let go at distance one needs it. */
  lemma ReleasedNeeds(q: real)
    requires q >= 0.0
    ensures NextLag(1.0, 0.0, q) == q
    ensures (0.0 <= q <= 1.0 - q * q || 1.0 - q * q <= q <= 0.0) ==> q * q + q <= 1.0
  {
    Times(q, q);
  }

  /** In those units: the cone, the distance and the bound, on whichever side the value is. */
  predicate KeptScaled(x: real, u: real, q: real) {
    var w := NextLag(x, u, q);
    var y := x - q * w;
    && (0.0 <= w <= y || y <= w <= 0.0)
    && (0.0 <= y <= x || x <= y <= 0.0)
    && (q <= 0.5 ==> Abs(y) <= Abs(x) - q * q * Abs(x))
  }

  lemma KeptAbove(x: real, u: real, q: real)
    requires 0.0 <= u <= x && SmallStep(q)
    ensures KeptScaled(x, u, q)
  {
    hide NextLag;
    ScaledCone(x, u, q);
  }

  lemma KeptMirrored(x: real, u: real, q: real)
    requires KeptScaled(-x, -u, q)
    ensures KeptScaled(x, u, q)
  {
    Opposite(x, u, q);
    hide NextLag;
    assert -x - q * -NextLag(x, u, q) == -(x - q * NextLag(x, u, q));
  }

  /** One substep keeps the cone: the value neither overshoots nor moves away. */
  lemma SubstepKeepsCone(s: Swing, root: real, elapsed: real)
    requires root > 0.0 && SmallStep(Reach(root, elapsed)) && InCone(s, root)
    ensures var q, next := Reach(root, elapsed), Substep(s, root, elapsed);
            && InCone(next, root) && Closer(next, s)
            && (q <= 0.5 ==> Abs(next.offset) <= Abs(s.offset) - q * q * Abs(s.offset))
  {
    hide Substep, Reach, Lag, SmallStep, NextLag, KeptScaled, Abs;
    var x, u, q := s.offset, Lag(s, root), Reach(root, elapsed);
    SubstepScaled(s, root, elapsed);
    if 0.0 <= u <= x {
      KeptAbove(x, u, q);
    } else {
      KeptAbove(-x, -u, q);
      KeptMirrored(x, u, q);
    }
    var next := Substep(s, root, elapsed);
    KeptMeans(x, u, q, Lag(next, root), next.offset);
  }

  lemma KeptMeans(x: real, u: real, q: real, w: real, y: real)
    requires KeptScaled(x, u, q) && w == NextLag(x, u, q) && y == x - q * w
    ensures 0.0 <= w <= y || y <= w <= 0.0
    ensures 0.0 <= y <= x || x <= y <= 0.0
    ensures q <= 0.5 ==> Abs(y) <= Abs(x) - q * q * Abs(x)
  {
  }

  lemma Opposite(x: real, u: real, q: real)
    ensures NextLag(-x, -u, q) == -NextLag(x, u, q)
  {
    assert -x - 2.0 * -u == -1.0 * (x - 2.0 * u);
  }

  /** The cone is kept exactly by the small steps: with any longer one, some motion leaves it. */
  lemma ConeNeedsSmallSteps(root: real, elapsed: real)
    requires root > 0.0 && elapsed >= 0.0
    ensures (forall s :: InCone(s, root) ==> InCone(Substep(s, root, elapsed), root)) <==>
            SmallStep(Reach(root, elapsed))
  {
    var q := Reach(root, elapsed);
    assert q >= 0.0 by { Times(root, elapsed); }
    if SmallStep(q) {
      forall s | InCone(s, root) ensures InCone(Substep(s, root, elapsed), root) {
        SubstepKeepsCone(s, root, elapsed);
      }
    } else {
      hide Substep, Reach, NextLag;
      var s := Swing(1.0, 0.0);
      assert Lag(s, root) == 0.0;
      assert InCone(s, root);
      SubstepScaled(s, root, elapsed);
      ReleasedNeeds(q);
      assert !InCone(Substep(s, root, elapsed), root) by { hide Lag; }
    }
  }

  // Frames.

  /** All substeps of a frame keep the cone. */
  lemma {:induction false} SubstepsKeepCone(s: Swing, root: real, elapsed: real, count: nat)
    requires root > 0.0 && SmallStep(Reach(root, elapsed)) && InCone(s, root)
    ensures InCone(Substeps(s, root, elapsed, count), root) && Closer(Substeps(s, root, elapsed, count), s)
  {
    hide Substep, Reach, Lag, SmallStep;
    if count > 0 {
      SubstepsKeepCone(s, root, elapsed, count - 1);
      SubstepKeepsCone(Substeps(s, root, elapsed, count - 1), root, elapsed);
    }
  }

  /** The end of a frame: close and slow enough counts as arrived. */
  function Snapped(s: Swing, tolerance: real): Swing {
    if Abs(s.offset) < tolerance && Abs(s.velocity) < tolerance * SETTLE_SPEED_RATIO then Swing(0.0, 0.0) else s
  }

  /**
   A frame ends at the target only from nearer than the tolerance and slower than ten times it, and
   from there always.
   */
  lemma SnapsInside(s: Swing, tolerance: real)
    requires s != Swing(0.0, 0.0)
    ensures Snapped(s, tolerance) == Swing(0.0, 0.0) <==>
            -tolerance < s.offset < tolerance && -10.0 * tolerance < s.velocity < 10.0 * tolerance
    ensures Snapped(s, tolerance) == Swing(0.0, 0.0) || Snapped(s, tolerance) == s
  {
  }

  function Frame(s: Swing, root: real, elapsed: real, tolerance: real): Swing {
    Snapped(Substeps(s, root, elapsed, SPRING_SUBSTEPS), tolerance)
  }

  /** Frames with the given substep times, one after the other. */
  function Frames(s: Swing, root: real, times: seq<real>, tolerance: real): Swing {
    if times == [] then s
    else Frame(Frames(s, root, times[..|times| - 1], tolerance), root, times[|times| - 1], tolerance)
  }

  predicate Calm(root: real, times: seq<real>) {
    forall i :: 0 <= i < |times| ==> SmallStep(Reach(root, times[i]))
  }

  lemma AtRest(offset: real, root: real)
    requires root > 0.0
    ensures InCone(Swing(offset, 0.0), root)
  {
    assert Lag(Swing(offset, 0.0), root) == 0.0;
  }

  lemma FrameKeepsCone(s: Swing, root: real, elapsed: real, tolerance: real)
    requires root > 0.0 && SmallStep(Reach(root, elapsed)) && InCone(s, root)
    ensures InCone(Frame(s, root, elapsed, tolerance), root) && Closer(Frame(s, root, elapsed, tolerance), s)
  {
    hide Substeps, Reach, Lag, SmallStep;
    SubstepsKeepCone(s, root, elapsed, SPRING_SUBSTEPS);
    AtRest(0.0, root);
  }

  /** Over any number of frames a spring started at rest never overshoots and never moves away. */
  lemma {:induction false} NeverOvershoots(offset: real, root: real, times: seq<real>, tolerance: real)
    requires root > 0.0 && Calm(root, times)
    ensures var s := Frames(Swing(offset, 0.0), root, times, tolerance);
            InCone(s, root) && Closer(s, Swing(offset, 0.0))
    ensures times != [] ==> Closer(Frames(Swing(offset, 0.0), root, times, tolerance),
                                   Frames(Swing(offset, 0.0), root, times[..|times| - 1], tolerance))
  {
    hide Frame, Reach, Lag, SmallStep, InCone;
    AtRest(offset, root);
    if times != [] {
      var rest, last := times[..|times| - 1], times[|times| - 1];
      NeverOvershoots(offset, root, rest, tolerance);
      FrameKeepsCone(Frames(Swing(offset, 0.0), root, rest, tolerance), root, last, tolerance);
    }
  }

  // How soon the spring settles.

  /** Shrinking by a part p at least n times divides the distance by at least 1 + n p. */
  predicate Shrunk(n: nat, p: real, x: real, start: real) {
    (1.0 + n as real * p) * x <= start
  }

  lemma Shrinks(n: nat, p: real, x: real, next: real, start: real)
    requires 0.0 <= p <= 1.0 && x >= 0.0 && next >= 0.0
    requires next <= x - p * x && Shrunk(n, p, x, start)
    ensures Shrunk(n + 1, p, next, start)
  {
    var k := n as real;
    Times(k, p);
    Times(k * p, p);
    Times(p, p);
    Times(k * p * p + p * p, x);
    var grown := 1.0 + (k + 1.0) * p;
    calc {
      grown * next;
      <= { Times(grown, x - p * x - next); assert grown * (x - p * x - next) == grown * (x - p * x) - grown * next; }
      grown * (x - p * x);
      == { assert (k + 1.0) * p == k * p + p; }
      (1.0 + k * p) * x - (k * p * p + p * p) * x;
      <=
      (1.0 + k * p) * x;
    }
    assert (n + 1) as real == k + 1.0;
  }

  /** Short enough that the distance shrinks, long enough that it shrinks by `pace` squared. */
  predicate Paced(pace: real, reach: real) {
    0.0 < pace <= reach <= 0.5
  }

  lemma PacedIsSmall(pace: real, reach: real)
    requires Paced(pace, reach)
    ensures SmallStep(reach) && 0.0 <= pace * pace <= reach * reach && pace * pace <= 1.0
  {
    Times(pace, reach - pace);
    Times(reach, reach - pace);
    Times(reach, 0.5 - reach);
  }

  lemma SubstepShrinks(s: Swing, root: real, elapsed: real, pace: real, n: nat, start: real)
    requires root > 0.0 && Paced(pace, Reach(root, elapsed)) && InCone(s, root)
    requires Shrunk(n, pace * pace, Abs(s.offset), start)
    ensures var next := Substep(s, root, elapsed);
            InCone(next, root) && Shrunk(n + 1, pace * pace, Abs(next.offset), start)
  {
    hide Substep, Reach, Lag, SmallStep, InCone, Shrunk;
    var q, d := Reach(root, elapsed), Abs(s.offset);
    PacedIsSmall(pace, q);
    SubstepKeepsCone(s, root, elapsed);
    Times(q * q - pace * pace, d);
    assert (q * q - pace * pace) * d == q * q * d - pace * pace * d;
    Shrinks(n, pace * pace, d, Abs(Substep(s, root, elapsed).offset), start);
  }

  lemma {:induction false} SubstepsShrink(s: Swing, root: real, elapsed: real, pace: real, n: nat, start: real,
        count: nat)
    requires root > 0.0 && Paced(pace, Reach(root, elapsed)) && InCone(s, root)
    requires Shrunk(n, pace * pace, Abs(s.offset), start)
    ensures var next := Substeps(s, root, elapsed, count);
            InCone(next, root) && Shrunk(n + count, pace * pace, Abs(next.offset), start)
  {
    hide Substep, Reach, Lag, InCone, Shrunk, Paced, Abs;
    if count > 0 {
      SubstepsShrink(s, root, elapsed, pace, n, start, count - 1);
      SubstepShrinks(Substeps(s, root, elapsed, count - 1), root, elapsed, pace, n + count - 1, start);
    }
  }

  /** So many frames that a start that far away must have come near enough. */
  predicate LongEnough(frames: nat, pace: real, root: real, start: real, tolerance: real) {
    var grown := 1.0 + (frames * SPRING_SUBSTEPS) as real * (pace * pace);
    grown * tolerance > start && grown * (tolerance * SETTLE_SPEED_RATIO) > start * root
  }

  function Grown(frames: nat, pace: real): (grown: real)
    ensures grown >= 1.0
  {
    Square(pace);
    Times((frames * SPRING_SUBSTEPS) as real, pace * pace);
    1.0 + (frames * SPRING_SUBSTEPS) as real * (pace * pace)
  }

  lemma Near(frames: nat, pace: real, root: real, start: real, tolerance: real, s: Swing)
    requires root > 0.0 && InCone(s, root) && LongEnough(frames, pace, root, start, tolerance)
    requires Shrunk(frames * SPRING_SUBSTEPS, pace * pace, Abs(s.offset), start)
    ensures Snapped(s, tolerance) == Swing(0.0, 0.0)
  {
    hide InCone, Abs;
    NearInPlaceAndSpeed(Grown(frames, pace), Abs(s.offset), root, start, tolerance);
    Slow(s, root);
  }

  lemma NearInPlaceAndSpeed(grown: real, d: real, root: real, start: real, tolerance: real)
    requires grown >= 1.0 && root > 0.0 && grown * d <= start
    requires grown * tolerance > start && grown * (tolerance * SETTLE_SPEED_RATIO) > start * root
    ensures d < tolerance && d * root < tolerance * SETTLE_SPEED_RATIO
  {
    NearEnough(grown, d, start, tolerance);
    Times(root, start - grown * d);
    assert grown * (d * root) == root * (grown * d);
    NearEnough(grown, d * root, start * root, tolerance * SETTLE_SPEED_RATIO);
  }

  lemma NearEnough(grown: real, d: real, start: real, bound: real)
    requires grown >= 1.0 && grown * d <= start < grown * bound
    ensures d < bound
  {
    if d >= bound {
      Times(grown, d - bound);
    }
  }

  lemma Slow(s: Swing, root: real)
    requires root > 0.0 && InCone(s, root)
    ensures Abs(s.velocity) <= Abs(s.offset) * root
  {
    var u := Lag(s, root);
    assert s.velocity == -root * u;
    Times(root, Abs(s.offset) - Abs(u));
    assert Abs(s.velocity) == root * Abs(u);
  }

  predicate Steady(root: real, times: seq<real>, pace: real) {
    forall i :: 0 <= i < |times| ==> Paced(pace, Reach(root, times[i]))
  }

  /** One frame: it arrives, or stays on the way down the same curve. */
  lemma FrameShrinks(s: Swing, root: real, elapsed: real, tolerance: real, pace: real, frames: nat, start: real)
    requires root > 0.0 && Paced(pace, Reach(root, elapsed)) && InCone(s, root)
    requires Shrunk(frames * SPRING_SUBSTEPS, pace * pace, Abs(s.offset), start)
    ensures var next := Frame(s, root, elapsed, tolerance);
            && InCone(next, root)
            && (next == Swing(0.0, 0.0) || Shrunk((frames + 1) * SPRING_SUBSTEPS, pace * pace, Abs(next.offset), start))
            && (LongEnough(frames + 1, pace, root, start, tolerance) ==> next == Swing(0.0, 0.0))
  {
    hide Substeps, Reach, Lag, InCone, Shrunk, LongEnough, Paced;
    SubstepsShrink(s, root, elapsed, pace, frames * SPRING_SUBSTEPS, start, SPRING_SUBSTEPS);
    AtRest(0.0, root);
    if LongEnough(frames + 1, pace, root, start, tolerance) {
      Near(frames + 1, pace, root, start, tolerance, Substeps(s, root, elapsed, SPRING_SUBSTEPS));
    }
  }

  lemma {:induction false} StaysSettled(root: real, elapsed: real, tolerance: real, count: nat)
    ensures Substeps(Swing(0.0, 0.0), root, elapsed, count) == Swing(0.0, 0.0)
    ensures Frame(Swing(0.0, 0.0), root, elapsed, tolerance) == Swing(0.0, 0.0)
    decreases SPRING_SUBSTEPS + count
  {
    if count > 0 {
      StaysSettled(root, elapsed, tolerance, count - 1);
    } else {
      var s := Swing(0.0, 0.0);
      assert Substep(s, root, elapsed) == s;
      assert Substeps(s, root, elapsed, 1) == s;
      assert Substeps(s, root, elapsed, 2) == s;
      assert Substeps(s, root, elapsed, 3) == s;
      assert Substeps(s, root, elapsed, 4) == s;
    }
  }

  lemma {:induction false} OnTheWay(offset: real, root: real, times: seq<real>, tolerance: real, pace: real)
    requires root > 0.0 && Steady(root, times, pace)
    ensures var s := Frames(Swing(offset, 0.0), root, times, tolerance);
            && InCone(s, root)
            && (s == Swing(0.0, 0.0) || Shrunk(|times| * SPRING_SUBSTEPS, pace * pace, Abs(s.offset), Abs(offset)))
            && (times != [] && LongEnough(|times|, pace, root, Abs(offset), tolerance) ==> s == Swing(0.0, 0.0))
  {
    hide Frame, Reach, Lag, Paced, InCone, LongEnough;
    AtRest(offset, root);
    if times != [] {
      hide Shrunk;
      var rest, last := times[..|times| - 1], times[|times| - 1];
      OnTheWay(offset, root, rest, tolerance, pace);
      var s := Frames(Swing(offset, 0.0), root, rest, tolerance);
      if s == Swing(0.0, 0.0) {
        StaysSettled(root, last, tolerance, 0);
      } else {
        FrameShrinks(s, root, last, tolerance, pace, |rest|, Abs(offset));
      }
    }
  }

  /** With frame times bounded below, the spring has snapped to its target after a number of frames known beforehand. */
  lemma SettlesInTime(offset: real, root: real, times: seq<real>, tolerance: real, pace: real)
    requires root > 0.0 && Steady(root, times, pace)
    requires times != [] && LongEnough(|times|, pace, root, Abs(offset), tolerance)
    ensures Frames(Swing(offset, 0.0), root, times, tolerance) == Swing(0.0, 0.0)
  {
    hide *;
    OnTheWay(offset, root, times, tolerance, pace);
  }

  lemma Quotient(a: real, b: real) returns (count: nat)
    requires a >= 0.0 && b > 0.0
    ensures count as real * b >= a
  {
    var r := a / b;
    assert r * b == a;
    if r < 0.0 {
      Grows(-r, b);
    }
    count := r.Floor + 1;
    Times(count as real - r, b);
  }

  lemma Scales(many: real, few: real, p: real, bound: real, far: real)
    requires many >= few && p * bound > 0.0 && bound > 0.0 && few * (p * bound) >= far
    ensures (1.0 + many * p) * bound > far
  {
    Times(many - few, p * bound);
    assert (1.0 + many * p) * bound == bound + many * (p * bound);
  }

  /** Such a number of frames exists for every spring, every start and every pace. */
  lemma EnoughFrames(offset: real, root: real, tolerance: real, pace: real) returns (frames: nat)
    requires root > 0.0 && tolerance > 0.0 && pace > 0.0
    ensures frames > 0 && LongEnough(frames, pace, root, Abs(offset), tolerance)
  {
    var p := Product(pace, pace);
    frames := FramesFor(Abs(offset), root, tolerance, pace, p);
  }

  lemma Product(a: real, b: real) returns (p: real)
    requires a > 0.0 && b > 0.0
    ensures p == a * b && p > 0.0
  {
    p := a * b;
    Grows(a, b);
  }

  lemma FramesFor(distance: real, root: real, tolerance: real, pace: real, p: real) returns (frames: nat)
    requires distance >= 0.0 && root > 0.0 && tolerance > 0.0 && p > 0.0 && p == pace * pace
    ensures frames > 0 && LongEnough(frames, pace, root, distance, tolerance)
  {
    var fast := tolerance * SETTLE_SPEED_RATIO;
    Grows(p, tolerance);
    Grows(p, fast);
    Times(distance, root);
    var near := Quotient(distance, p * tolerance);
    var slow := Quotient(distance * root, p * fast);
    frames := near + slow + 1;
    var many := (frames * SPRING_SUBSTEPS) as real;
    Scales(many, near as real, p, tolerance, distance);
    Scales(many, slow as real, p, fast, distance * root);
  }

  // Settling from any state: retargeted in flight, a spring may overshoot, but not for ever.

  function Max(a: real, b: real): real {
    if a < b then b else a
  }

  /** The larger of the lag and of what the offset is beyond it; no substep makes it grow. */
  function Size(s: Swing, root: real): (size: real)
    requires root > 0.0
    ensures size >= 0.0
  {
    Max(Abs(Lag(s, root)), Abs(s.offset - Lag(s, root)))
  }

  lemma Within(a: real, x: real, m: real)
    requires a >= 0.0 && -m <= x <= m
    ensures -(a * m) <= a * x <= a * m
  {
    Times(a, m - x);
    Times(a, m + x);
  }

  /** The lag after a substep, and what is beyond it: both are mixed from the two before. */
  function LagAfter(q: real, u: real, e: real): real {
    (1.0 - q) * u + q * e
  }

  function BeyondAfter(q: real, u: real, e: real): real {
    q * q * u + (1.0 - q - q * q) * e
  }

  lemma Mixed(a: real, b: real, x: real, y: real, m: real, n: real)
    requires a >= 0.0 && b >= 0.0 && -m <= x <= m && -n <= y <= n
    ensures -(a * m + b * n) <= a * x + b * y <= a * m + b * n
  {
    Within(a, x, m);
    Within(b, y, n);
  }

  lemma LagBounded(q: real, u: real, e: real, m: real, n: real)
    requires 0.0 <= q <= 0.5 && -m <= u <= m && -n <= e <= n
    ensures -LagAfter(q, m, n) <= LagAfter(q, u, e) <= LagAfter(q, m, n)
  {
    Mixed(1.0 - q, q, u, e, m, n);
  }

  lemma BeyondBounded(q: real, u: real, e: real, m: real, n: real)
    requires 0.0 <= q <= 0.5 && -m <= u <= m && -n <= e <= n
    ensures -BeyondAfter(q, m, n) <= BeyondAfter(q, u, e) <= BeyondAfter(q, m, n)
  {
    Times(q, 0.5 - q);
    Times(q, q);
    Mixed(q * q, 1.0 - q - q * q, u, e, m, n);
  }

  lemma OneScaled(x: real, u: real, q: real, w: real, y: real)
    requires w == NextLag(x, u, q) && y == x - q * w
    ensures w == LagAfter(q, u, x - u) && y - w == BeyondAfter(q, u, x - u)
  {
    assert w == (1.0 - q) * u + q * (x - u);
    assert q * w == (q - q * q) * u + q * q * (x - u);
  }

  /** What is known after a substep, given bounds for the lag and for what is beyond it. */
  lemma SubstepBounds(s: Swing, root: real, elapsed: real, m: real, n: real)
    requires root > 0.0 && 0.0 <= Reach(root, elapsed) <= 0.5
    requires -m <= Lag(s, root) <= m && -n <= s.offset - Lag(s, root) <= n
    ensures var q, next := Reach(root, elapsed), Substep(s, root, elapsed);
            && -LagAfter(q, m, n) <= Lag(next, root) <= LagAfter(q, m, n)
            && -BeyondAfter(q, m, n) <= next.offset - Lag(next, root) <= BeyondAfter(q, m, n)
  {
    hide Substep, Reach, Lag, NextLag, LagAfter, BeyondAfter;
    var u, q, next := Lag(s, root), Reach(root, elapsed), Substep(s, root, elapsed);
    SubstepScaled(s, root, elapsed);
    OneScaled(s.offset, u, q, Lag(next, root), next.offset);
    LagBounded(q, u, s.offset - u, m, n);
    BeyondBounded(q, u, s.offset - u, m, n);
  }

  /** After the first substep what is beyond the lag is smaller by q. */
  lemma FirstBound(q: real, m: real)
    ensures LagAfter(q, m, m) == m && BeyondAfter(q, m, m) == m - q * m
  {
  }

  /** After the second one both are smaller by q squared. */
  lemma SecondBound(q: real, m: real, less: real)
    requires 0.0 <= q <= 0.5 && m >= 0.0 && less == m - q * m
    ensures LagAfter(q, m, less) == m - q * q * m && BeyondAfter(q, m, less) <= m - q * q * m
  {
    var d := q * m;
    var c := q * d;
    assert (1.0 - q - q * q) * (m - d) == m - d - d + c - c + q * c;
    assert q * q * m == c;
    Times(q, m);
    Times(q, d);
    Times(0.5 - q, d);
    Times(0.5 - q, c);
    assert (0.5 - q) * d == 0.5 * d - c && (0.5 - q) * c == 0.5 * c - q * c;
  }

  lemma SizeIs(s: Swing, root: real)
    requires root > 0.0
    ensures -Size(s, root) <= Lag(s, root) <= Size(s, root)
    ensures -Size(s, root) <= s.offset - Lag(s, root) <= Size(s, root)
  {
  }

  lemma SizeBounds(s: Swing, root: real, m: real)
    requires root > 0.0 && -m <= Lag(s, root) <= m && -m <= s.offset - Lag(s, root) <= m
    ensures Size(s, root) <= m
  {
  }

  /** Two substeps shrink the size by q squared, wherever the spring is and however fast it moves. */
  lemma TwoSubstepsShrink(s: Swing, root: real, elapsed: real)
    requires root > 0.0 && 0.0 <= Reach(root, elapsed) <= 0.5
    ensures var q, m := Reach(root, elapsed), Size(s, root);
            Size(Substep(Substep(s, root, elapsed), root, elapsed), root) <= m - q * q * m
  {
    hide Substep, Reach, Lag, Size, LagAfter, BeyondAfter;
    var q, m := Reach(root, elapsed), Size(s, root);
    var half, less := Substep(s, root, elapsed), BeyondAfter(q, m, m);
    SizeIs(s, root);
    FirstBound(q, m);
    SecondBound(q, m, less);
    SubstepBounds(s, root, elapsed, m, m);
    SubstepBounds(half, root, elapsed, m, less);
    SizeBounds(Substep(half, root, elapsed), root, m - q * q * m);
  }

  lemma PairShrinks(s: Swing, root: real, elapsed: real, pace: real, n: nat, start: real)
    requires root > 0.0 && Paced(pace, Reach(root, elapsed)) && Shrunk(n, pace * pace, Size(s, root), start)
    ensures Shrunk(n + 1, pace * pace, Size(Substep(Substep(s, root, elapsed), root, elapsed), root), start)
  {
    hide Substep, Reach, Shrunk, Size;
    var q, m := Reach(root, elapsed), Size(s, root);
    PacedIsSmall(pace, q);
    TwoSubstepsShrink(s, root, elapsed);
    Times(q * q - pace * pace, m);
    assert (q * q - pace * pace) * m == q * q * m - pace * pace * m;
    Shrinks(n, pace * pace, m, Size(Substep(Substep(s, root, elapsed), root, elapsed), root), start);
  }

  const SUBSTEP_PAIRS := SPRING_SUBSTEPS / 2

  lemma PairsShrink(s: Swing, root: real, elapsed: real, pace: real, n: nat, start: real)
    requires root > 0.0 && Paced(pace, Reach(root, elapsed)) && Shrunk(n, pace * pace, Size(s, root), start)
    ensures Shrunk(n + SUBSTEP_PAIRS, pace * pace, Size(Substeps(s, root, elapsed, SPRING_SUBSTEPS), root), start)
  {
    hide Substep, Reach, Shrunk, Size, Paced;
    var half := Substep(Substep(s, root, elapsed), root, elapsed);
    assert Substeps(s, root, elapsed, 1) == Substep(s, root, elapsed);
    assert Substeps(s, root, elapsed, 2) == half;
    assert Substeps(s, root, elapsed, 3) == Substep(half, root, elapsed);
    PairShrinks(s, root, elapsed, pace, n, start);
    PairShrinks(half, root, elapsed, pace, n + 1, start);
  }

  /** So many frames that a start of that size must have come near enough, whichever way it went. */
  predicate LongEnoughFor(frames: nat, pace: real, root: real, start: real, tolerance: real) {
    var grown := 1.0 + (frames * SUBSTEP_PAIRS) as real * (pace * pace);
    grown * tolerance > 2.0 * start && grown * (tolerance * SETTLE_SPEED_RATIO) > start * root
  }

  lemma SmallSnaps(s: Swing, root: real, tolerance: real)
    requires root > 0.0 && 2.0 * Size(s, root) < tolerance && Size(s, root) * root < tolerance * SETTLE_SPEED_RATIO
    ensures Snapped(s, tolerance) == Swing(0.0, 0.0)
  {
    var u := Lag(s, root);
    assert s.velocity == -root * u;
    Times(root, Size(s, root) - Abs(u));
    assert Abs(s.velocity) == root * Abs(u);
  }

  lemma SmallByThen(frames: nat, pace: real, root: real, m: real, start: real, tolerance: real)
    requires root > 0.0 && LongEnoughFor(frames, pace, root, start, tolerance)
    requires Shrunk(frames * SUBSTEP_PAIRS, pace * pace, m, start)
    ensures 2.0 * m < tolerance && m * root < tolerance * SETTLE_SPEED_RATIO
  {
    var grown := 1.0 + (frames * SUBSTEP_PAIRS) as real * (pace * pace);
    Square(pace);
    Times((frames * SUBSTEP_PAIRS) as real, pace * pace);
    assert grown * (2.0 * m) == 2.0 * (grown * m);
    NearEnough(grown, 2.0 * m, 2.0 * start, tolerance);
    Times(root, start - grown * m);
    assert grown * (m * root) == root * (grown * m);
    NearEnough(grown, m * root, start * root, tolerance * SETTLE_SPEED_RATIO);
  }

  lemma FrameShrinksSize(s: Swing, root: real, elapsed: real, tolerance: real, pace: real, frames: nat, start: real)
    requires root > 0.0 && Paced(pace, Reach(root, elapsed))
    requires Shrunk(frames * SUBSTEP_PAIRS, pace * pace, Size(s, root), start)
    ensures var next := Frame(s, root, elapsed, tolerance);
            && (next == Swing(0.0, 0.0) || Shrunk((frames + 1) * SUBSTEP_PAIRS, pace * pace, Size(next, root), start))
            && (LongEnoughFor(frames + 1, pace, root, start, tolerance) ==> next == Swing(0.0, 0.0))
  {
    hide Substeps, Reach, Size, Shrunk, LongEnoughFor, Paced;
    var last := Substeps(s, root, elapsed, SPRING_SUBSTEPS);
    PairsShrink(s, root, elapsed, pace, frames * SUBSTEP_PAIRS, start);
    if LongEnoughFor(frames + 1, pace, root, start, tolerance) {
      SmallByThen(frames + 1, pace, root, Size(last, root), start, tolerance);
      SmallSnaps(last, root, tolerance);
    }
  }

  lemma NothingShrunk(p: real, start: real)
    ensures Shrunk(0, p, start, start)
  {
  }

  lemma {:induction false} Calming(start: Swing, root: real, times: seq<real>, tolerance: real, pace: real)
    requires root > 0.0 && Steady(root, times, pace)
    ensures var s, size := Frames(start, root, times, tolerance), Size(start, root);
            && (s == Swing(0.0, 0.0) || Shrunk(|times| * SUBSTEP_PAIRS, pace * pace, Size(s, root), size))
            && (times != [] && LongEnoughFor(|times|, pace, root, size, tolerance) ==> s == Swing(0.0, 0.0))
  {
    hide Frame, Reach, Size, Paced, LongEnoughFor, Shrunk;
    NothingShrunk(pace * pace, Size(start, root));
    if times != [] {
      var rest, last := times[..|times| - 1], times[|times| - 1];
      Calming(start, root, rest, tolerance, pace);
      var s := Frames(start, root, rest, tolerance);
      if s == Swing(0.0, 0.0) {
        StaysSettled(root, last, tolerance, 0);
      } else {
        FrameShrinksSize(s, root, last, tolerance, pace, |rest|, Size(start, root));
      }
    }
  }

  /**
   From every place and speed, with frame times bounded below, the spring has snapped after a
   number of frames known beforehand.
   */
  lemma SettlesFromAnywhere(start: Swing, root: real, times: seq<real>, tolerance: real, pace: real)
    requires root > 0.0 && Steady(root, times, pace)
    requires times != [] && LongEnoughFor(|times|, pace, root, Size(start, root), tolerance)
    ensures Frames(start, root, times, tolerance) == Swing(0.0, 0.0)
  {
    hide *;
    Calming(start, root, times, tolerance, pace);
  }

  /** Such a number exists for every start. */
  lemma EnoughFromAnywhere(start: Swing, root: real, tolerance: real, pace: real) returns (frames: nat)
    requires root > 0.0 && tolerance > 0.0 && pace > 0.0
    ensures frames > 0 && LongEnoughFor(frames, pace, root, Size(start, root), tolerance)
  {
    var p := Product(pace, pace);
    hide Size;
    frames := FramesForSize(Size(start, root), root, tolerance, pace, p, tolerance * SETTLE_SPEED_RATIO);
  }

  lemma FramesForSize(size: real, root: real, tolerance: real, pace: real, p: real, fast: real) returns (frames: nat)
    requires size >= 0.0 && root > 0.0 && tolerance > 0.0 && p > 0.0 && p == pace * pace
    requires fast == tolerance * SETTLE_SPEED_RATIO
    ensures frames > 0 && LongEnoughFor(frames, pace, root, size, tolerance)
  {
    Grows(p, tolerance);
    Grows(p, fast);
    Times(size, root);
    var near := Quotient(2.0 * size, p * tolerance);
    var slow := Quotient(size * root, p * fast);
    frames := near + slow + 1;
    var many := (frames * SUBSTEP_PAIRS) as real;
    Scales(many, near as real, p, tolerance, 2.0 * size);
    Scales(many, slow as real, p, fast, size * root);
  }

  // In flight.

  /** Moving towards the target, and not there. */
  predicate InFlight(s: Swing, root: real)
    requires root > 0.0
  {
    0.0 < Lag(s, root) <= s.offset || s.offset <= Lag(s, root) < 0.0
  }

  lemma ScaledFlight(x: real, u: real, q: real)
    requires 0.0 <= u <= x && x > 0.0 && SmallStep(q) && q > 0.0
    ensures var w := NextLag(x, u, q); 0.0 < w <= x - q * w
  {
    ScaledCone(x, u, q);
    assert NextLag(x, u, q) == (1.0 - q) * u + q * (x - u);
    Grows(q, q);
    BothForward(q, u, x - u);
  }

  lemma BothForward(q: real, u: real, e: real)
    requires 0.0 < q < 1.0 && u >= 0.0 && e >= 0.0 && u + e > 0.0
    ensures (1.0 - q) * u + q * e > 0.0
  {
    Times(1.0 - q, u);
    Times(q, e);
    if u > 0.0 { Grows(1.0 - q, u); } else { Grows(q, e); }
  }

  /** A substep sets a spring away from its target in motion, and keeps it so. */
  lemma SubstepFlies(s: Swing, root: real, elapsed: real)
    requires root > 0.0 && SmallStep(Reach(root, elapsed)) && Reach(root, elapsed) > 0.0
    requires InCone(s, root) && s.offset != 0.0
    ensures InFlight(Substep(s, root, elapsed), root)
  {
    hide Substep, Reach, Lag, SmallStep, NextLag;
    var x, u, q := s.offset, Lag(s, root), Reach(root, elapsed);
    SubstepScaled(s, root, elapsed);
    if x > 0.0 {
      ScaledFlight(x, u, q);
    } else {
      ScaledFlight(-x, -u, q);
      Opposite(x, u, q);
      Mirrored(x, q, NextLag(x, u, q), NextLag(-x, -u, q));
    }
  }

  lemma Mirrored(x: real, q: real, w: real, mirror: real)
    requires mirror == -w && 0.0 < mirror <= -x - q * mirror
    ensures x - q * w <= w < 0.0
  {
    assert q * mirror == -(q * w);
  }

  lemma {:induction false} SubstepsFly(s: Swing, root: real, elapsed: real, count: nat)
    requires root > 0.0 && SmallStep(Reach(root, elapsed)) && Reach(root, elapsed) > 0.0
    requires InCone(s, root) && s.offset != 0.0 && count > 0
    ensures InFlight(Substeps(s, root, elapsed, count), root)
  {
    hide Substep, Reach, SmallStep, Lag;
    if count > 1 { SubstepsFly(s, root, elapsed, count - 1); }
    SubstepFlies(Substeps(s, root, elapsed, count - 1), root, elapsed);
  }

  /** A spring that set off from rest is in motion after every frame until it has arrived. */
  lemma {:induction false} FliesUntilItArrives(offset: real, root: real, times: seq<real>, tolerance: real)
    requires root > 0.0 && Calm(root, times) && times != [] && forall i :: 0 <= i < |times| ==> times[i] > 0.0
    ensures var s := Frames(Swing(offset, 0.0), root, times, tolerance); s == Swing(0.0, 0.0) || s.velocity != 0.0
  {
    hide Frame, Reach, Lag, SmallStep, InCone;
    var rest, last := times[..|times| - 1], times[|times| - 1];
    var before := Frames(Swing(offset, 0.0), root, rest, tolerance);
    NeverOvershoots(offset, root, rest, tolerance);
    if before.offset == 0.0 { ZeroOffset(before, root); } else { FrameFlies(before, root, last, tolerance); }
    StaysSettled(root, last, tolerance, 0);
  }

  lemma ZeroOffset(s: Swing, root: real)
    requires root > 0.0 && InCone(s, root) && s.offset == 0.0
    ensures s == Swing(0.0, 0.0)
  {
    assert s.velocity == -root * Lag(s, root);
  }

  lemma FrameFlies(s: Swing, root: real, elapsed: real, tolerance: real)
    requires root > 0.0 && elapsed > 0.0 && SmallStep(Reach(root, elapsed)) && InCone(s, root) && s.offset != 0.0
    ensures var next := Frame(s, root, elapsed, tolerance); next == Swing(0.0, 0.0) || next.velocity != 0.0
  {
    hide Substeps, SmallStep, InCone, InFlight;
    Grows(root, elapsed);
    SubstepsFly(s, root, elapsed, SPRING_SUBSTEPS);
    var last := Substeps(s, root, elapsed, SPRING_SUBSTEPS);
    Moves(last, root);
  }

  lemma Moves(s: Swing, root: real)
    requires root > 0.0 && InFlight(s, root)
    ensures s.velocity != 0.0
  {
    var u := Lag(s, root);
    assert s.velocity == -root * u;
    if u > 0.0 { Grows(root, u); } else { Grows(root, -u); }
  }

  // Easing.

  function Cube(t: real): real {
    t * t * t
  }

  function Eased(easing: Easing, t: real): real {
    var inverse := 1.0 - t;
    match easing
    case Linear => t
    case EaseIn => Cube(t)
    case EaseOut => 1.0 - Cube(inverse)
    case EaseInOut => if t < 0.5 then 4.0 * Cube(t) else 1.0 - 4.0 * Cube(inverse)
  }

  lemma CubeGrows(a: real, b: real)
    requires 0.0 <= a <= b
    ensures Cube(a) <= Cube(b)
  {
    Times(a, b - a);
    Times(b, b - a);
    assert a * a <= b * b;
    Times(a * a, b - a);
    Times(b, b * b - a * a);
    assert a * a * a <= a * a * b <= b * b * b;
  }

  lemma CubeEnds()
    ensures Cube(0.0) == 0.0 && Cube(1.0) == 1.0 && Cube(0.5) == 0.125
  {
  }

  /** Every curve starts at zero, ends at one and never goes back. */
  lemma EasedGrows(easing: Easing, a: real, b: real)
    requires 0.0 <= a <= b <= 1.0
    ensures 0.0 <= Eased(easing, a) <= Eased(easing, b) <= 1.0
    ensures Eased(easing, 0.0) == 0.0 && Eased(easing, 1.0) == 1.0
  {
    hide Cube;
    CubeEnds();
    CubeGrows(0.0, a);
    CubeGrows(a, b);
    CubeGrows(b, 1.0);
    CubeGrows(0.0, 1.0 - b);
    CubeGrows(1.0 - b, 1.0 - a);
    CubeGrows(1.0 - a, 1.0);
    if easing.EaseInOut? {
      if b < 0.5 { CubeGrows(b, 0.5); } else { CubeGrows(1.0 - b, 0.5); }
      if a < 0.5 { CubeGrows(a, 0.5); } else { CubeGrows(1.0 - a, 0.5); }
    }
  }

  /**
   Easing in starts slowly, easing out is the same backwards, and easing both ways is one after the
   other at double speed.
   */
  lemma EasingShapes(t: real)
    requires 0.0 <= t <= 1.0
    ensures Eased(EaseIn, t) <= Eased(Linear, t) <= Eased(EaseOut, t)
    ensures Eased(EaseOut, t) == 1.0 - Eased(EaseIn, 1.0 - t)
    ensures t < 0.5 ==> Eased(EaseInOut, t) == Eased(EaseIn, 2.0 * t) / 2.0
    ensures t >= 0.5 ==> Eased(EaseInOut, t) == 0.5 + Eased(EaseOut, 2.0 * t - 1.0) / 2.0
  {
    hide Cube;
    CubeUnder(t);
    CubeUnder(1.0 - t);
    if t < 0.5 {
      CubeTwice(2.0 * t, t);
    } else {
      CubeTwice(1.0 - (2.0 * t - 1.0), 1.0 - t);
    }
  }

  lemma CubeTwice(x: real, y: real)
    requires x == 2.0 * y
    ensures Cube(x) == 8.0 * Cube(y)
  {
    calc {
      Cube(x);
      2.0 * y * (2.0 * y) * (2.0 * y);
      8.0 * (y * y * y);
    }
  }

  lemma CubeUnder(t: real)
    requires 0.0 <= t <= 1.0
    ensures Cube(t) <= t
  {
    Times(t, 1.0 - t);
    Times(t, t - t * t);
    assert t * (t - t * t) == t * t - Cube(t);
  }

  /** Where an eased value is, the given time after it set off; an ease takes time. */
  function EasedAt(origin: real, goal: real, seconds: real, easing: Easing, time: real): real
    requires seconds > 0.0
  {
    var progress := Min(time / seconds, 1.0);
    if progress >= 1.0 then goal else origin + (goal - origin) * Eased(easing, progress)
  }

  lemma Whole(a: real, time: real, seconds: real)
    requires seconds > 0.0 && a * seconds == time
    ensures a >= 1.0 <==> time >= seconds
  {
    if a >= 1.0 { Times(a - 1.0, seconds); } else { Grows(1.0 - a, seconds); }
  }

  lemma InOrder(a: real, b: real, seconds: real)
    requires seconds > 0.0 && a * seconds <= b * seconds
    ensures a <= b
  {
    if a > b { Grows(a - b, seconds); }
  }

  lemma Progress(time: real, later: real, seconds: real)
    requires seconds > 0.0 && 0.0 <= time <= later
    ensures 0.0 <= time / seconds <= later / seconds
    ensures time / seconds >= 1.0 <==> time >= seconds
  {
    var a, b := time / seconds, later / seconds;
    Whole(a, time, seconds);
    InOrder(0.0, a, seconds);
    InOrder(a, b, seconds);
  }

  /** Between the first and the last point, or between the last and the first. */
  predicate Between(first: real, x: real, y: real, last: real) {
    first <= x <= y <= last || last <= y <= x <= first
  }

  lemma Along(origin: real, goal: real, a: real, b: real)
    requires 0.0 <= a <= b <= 1.0
    ensures Between(origin, origin + (goal - origin) * a, origin + (goal - origin) * b, goal)
  {
    var way := goal - origin;
    if way >= 0.0 {
      Times(way, a); Times(way, b - a); Times(way, 1.0 - b);
    } else {
      Times(-way, a); Times(-way, b - a); Times(-way, 1.0 - b);
    }
  }

  lemma EaseSets(origin: real, goal: real, easing: Easing, a: real, b: real)
    requires 0.0 <= a <= b
    ensures var x := if Min(a, 1.0) >= 1.0 then goal else origin + (goal - origin) * Eased(easing, Min(a, 1.0));
            var y := if Min(b, 1.0) >= 1.0 then goal else origin + (goal - origin) * Eased(easing, Min(b, 1.0));
            Between(origin, x, y, goal)
  {
    hide Eased;
    EasedGrows(easing, Min(a, 1.0), Min(b, 1.0));
    Along(origin, goal, Eased(easing, Min(a, 1.0)), Eased(easing, Min(b, 1.0)));
    Along(origin, goal, Eased(easing, Min(a, 1.0)), 1.0);
  }

  /** An eased value only ever moves from its origin towards its goal, and is exactly there from its time on. */
  lemma EaseArrives(origin: real, goal: real, seconds: real, easing: Easing, time: real, later: real)
    requires seconds > 0.0 && 0.0 <= time <= later
    ensures Between(origin, EasedAt(origin, goal, seconds, easing, time),
                    EasedAt(origin, goal, seconds, easing, later), goal)
    ensures time >= seconds ==> EasedAt(origin, goal, seconds, easing, time) == goal
    ensures EasedAt(origin, goal, seconds, easing, 0.0) == origin
  {
    hide Eased;
    Progress(time, later, seconds);
    Progress(later, later, seconds);
    Progress(0.0, 0.0, seconds);
    EaseSets(origin, goal, easing, time / seconds, later / seconds);
    EasedGrows(easing, 0.0, 0.0);
    assert 0.0 / seconds == 0.0;
    assert (goal - origin) * 0.0 == 0.0;
  }

  // The value of a property.

  /** The substep time of a frame: a long frame counts as a short one. */
  function SubstepTimeOf(elapsed: real): real {
    Min(elapsed, LONGEST_STEP) / SPRING_SUBSTEPS as real
  }

  lemma Damping(root: real, damping: real, offset: real, velocity: real, pull: real)
    requires damping == 2.0 * root && pull == -(root * root) * offset - damping * velocity
    ensures pull == Pull(root, offset, velocity)
  {
    assert damping * velocity == 2.0 * root * velocity;
  }

  lemma PulledIs(now: real, goal: real, velocity: real, pull: real, elapsed: real)
    ensures var next := velocity + pull * elapsed;
            Pulled(now - goal, velocity, pull, elapsed) == Swing(now + next * elapsed - goal, next)
  {
  }

  class Value {
    var now: real
    var goal: real
    var velocity: real
    var origin: real
    var start: real
    var started: real
    var stepped: real
    var isSet: bool
    var hasStart: bool
    var ready: bool
    var unit: char

    constructor ()
      ensures !isSet && !ready && !hasStart && velocity == 0.0 && now == goal == 0.0
    {
      now, goal, velocity, origin, start, started, stepped := 0.0, 0.0, 0.0, 0.0, 0.0, 0.0, 0.0;
      isSet, hasStart, ready, unit := false, false, false, '0';
    }

    predicate Settled()
      reads this
    {
      now == goal && velocity == 0.0
    }

    ghost function Motion(): Swing
      reads this
    {
      Swing(now - goal, velocity)
    }

    /** Sends the value to a new goal from where it is; a value at rest starts its clock anew. */
    method Target(newGoal: real, newUnit: char, clock: real)
      modifies this
      ensures now == old(now) && velocity == old(velocity) && ready == old(ready)
      ensures hasStart == old(hasStart) && start == old(start)
      ensures var same := old(ready && goal == newGoal && unit == newUnit);
              && goal == newGoal && unit == newUnit
              && (same ==> unchanged(this))
              && (!same ==> isSet)
              && (old(ready) && !same ==>
                   origin == now && started == clock && stepped == if velocity == 0.0 then clock else old(stepped))
              && (!old(ready) ==> origin == old(origin) && started == old(started) && stepped == old(stepped))
    {
      if ready && goal == newGoal && unit == newUnit { return; }
      if ready {
        origin := now;
        started := clock;
        if velocity == 0.0 { stepped := started; }
      }
      goal := newGoal;
      unit := newUnit;
      isSet := true;
    }

    function SubstepTime(clock: real): real
      reads this
    {
      SubstepTimeOf(clock - stepped)
    }

    method Step(clock: real, kind: Kind, tolerance: real) returns (moved: bool)
      requires kind.Ease? ==> kind.seconds > 0.0
      requires tolerance > 0.0
      modifies this
      ensures goal == old(goal) && unit == old(unit) && isSet == old(isSet) && start == old(start)
      ensures hasStart == old(hasStart)
      ensures moved == old(isSet && (!ready || !Settled()))
      ensures !moved ==> unchanged(this)
      ensures moved && !old(ready) ==>
                && ready && now == origin == (if hasStart then start else goal)
                && started == stepped == clock && velocity == old(velocity)
      ensures moved && old(ready) ==> ready && origin == old(origin) && started == old(started)
      ensures moved && old(ready) && kind.Jump? ==> Settled()
      ensures moved && old(ready) && kind.Ease? ==>
                now == EasedAt(origin, goal, kind.seconds, kind.easing, clock - started) && velocity == old(velocity)
      ensures moved && old(ready) && kind.Ease? && clock - started >= kind.seconds ==>
                now == goal && (Settled() <==> old(velocity) == 0.0)
      ensures moved && old(ready) && kind.Spring? ==>
                Motion() == Frame(old(Motion()), kind.root, old(SubstepTime(clock)), tolerance) && stepped == clock
    {
      if !isSet { return false; }
      if !ready {
        ready := true;
        origin := if hasStart then start else goal;
        now := origin;
        started, stepped := clock, clock;
        return true;
      }
      if now == goal && velocity == 0.0 { return false; }
      moved := true;
      match kind {
        case Jump =>
          now := goal;
          velocity := 0.0;
        case Ease(seconds, easing) =>
          var progress := Min((clock - started) / seconds, 1.0);
          now := if progress >= 1.0 then goal else origin + (goal - origin) * Eased(easing, progress);
          if clock - started >= seconds {
            EaseArrives(origin, goal, seconds, easing, clock - started, clock - started);
          }
        case Spring(root) =>
          Swings(clock, root, tolerance);
      }
    }

    /**
     The frames drawn at these moments while the value eases. From its time on it is there, and at
     rest only if it was not in flight before.
     */
    method EaseOn(clocks: seq<real>, seconds: real, easing: Easing, tolerance: real)
      requires isSet && ready && seconds > 0.0 && tolerance > 0.0
      modifies this
      ensures isSet && ready && goal == old(goal) && started == old(started) && velocity == old(velocity)
      ensures clocks != [] && clocks[|clocks| - 1] - started >= seconds ==>
              now == goal && (Settled() <==> old(velocity) == 0.0)
    {
      var i := 0;
      while i < |clocks|
        invariant 0 <= i <= |clocks| && isSet && ready && goal == old(goal)
        invariant started == old(started) && velocity == old(velocity)
        invariant i > 0 && clocks[i - 1] - started >= seconds ==> now == goal
      {
        var moved := Step(clocks[i], Ease(seconds, easing), tolerance);
        i := i + 1;
      }
    }

    method Swings(clock: real, root: real, tolerance: real)
      modifies this`now, this`velocity, this`stepped
      ensures Motion() == Frame(old(Motion()), root, old(SubstepTime(clock)), tolerance) && stepped == clock
    {
      hide Pull, Pulled;
      var elapsed := SubstepTime(clock);
      var damping := 2.0 * root;
      stepped := clock;
      var i := 0;
      while i < SPRING_SUBSTEPS
        invariant 0 <= i <= SPRING_SUBSTEPS && stepped == clock
        invariant Motion() == Substeps(old(Motion()), root, elapsed, i)
      {
        var offset := now - goal;
        var pull := -(root * root) * offset - damping * velocity;
        Damping(root, damping, offset, velocity, pull);
        assert Substep(Motion(), root, elapsed) == Pulled(now - goal, velocity, pull, elapsed);
        PulledIs(now, goal, velocity, pull, elapsed);
        velocity := velocity + pull * elapsed;
        now := now + velocity * elapsed;
        i := i + 1;
      }
      if Abs(now - goal) < tolerance && Abs(velocity) < tolerance * SETTLE_SPEED_RATIO {
        now := goal;
        velocity := 0.0;
      }
    }
  }

  /** Four substeps of a fortieth bring a spring of stiffness one no tenth of the way. */
  lemma FirstFrame(tolerance: real)
    requires 0.0 < tolerance <= 0.9
    ensures Frame(Swing(-1.0, 0.0), 1.0, 0.025, tolerance).velocity != 0.0
  {
    var start := Swing(-1.0, 0.0);
    var one := Substep(start, 1.0, 0.025);
    var two := Substep(one, 1.0, 0.025);
    var three := Substep(two, 1.0, 0.025);
    var four := Substep(three, 1.0, 0.025);
    assert Substeps(start, 1.0, 0.025, 2) == two && Substeps(start, 1.0, 0.025, 4) == four;
    assert -1.0 < four.offset < -0.9 && 0.0 < four.velocity;
  }

  /** A spring caught in flight by an ease: it comes to its target, keeps its speed, and is never at rest there. */
  method CaughtInFlight() returns (v: Value)
    ensures fresh(v) && v.isSet && v.ready && v.now == v.goal && !v.Settled()
  {
    hide Frame;
    v := new Value();
    v.Target(0.0, '0', 0.0);
    var moved := v.Step(0.0, Spring(1.0), 0.01);
    v.Target(1.0, '0', 0.0);
    moved := v.Step(0.1, Spring(1.0), 0.01);
    FirstFrame(0.01);
    v.EaseOn([0.2, 0.6], 0.5, EaseOut, 0.01);
  }

  /** The time before a frame, the clock of the value standing at `stepped` before the first. */
  function FrameTime(stepped: real, clocks: seq<real>, i: nat): real
    requires i < |clocks|
  {
    clocks[i] - (if i == 0 then stepped else clocks[i - 1])
  }

  /** The substep times of the frames drawn at these moments. */
  function Paces(stepped: real, clocks: seq<real>): seq<real> {
    seq(|clocks|, i requires 0 <= i < |clocks| => SubstepTimeOf(FrameTime(stepped, clocks, i)))
  }

  function TotalTime(stepped: real, clocks: seq<real>): real {
    if clocks == [] then 0.0
    else TotalTime(stepped, clocks[..|clocks| - 1]) + FrameTime(stepped, clocks, |clocks| - 1)
  }

  /** The frames together take the time from the first clock to the last. */
  lemma {:induction false} FramesTakeTheTime(stepped: real, clocks: seq<real>)
    ensures clocks != [] ==> TotalTime(stepped, clocks) == clocks[|clocks| - 1] - stepped
  {
    if |clocks| > 1 {
      var rest := clocks[..|clocks| - 1];
      FramesTakeTheTime(stepped, rest);
      assert rest[|rest| - 1] == clocks[|clocks| - 2];
    } else if clocks != [] {
      assert clocks[..0] == [];
    }
  }

  /** The substeps of a frame take its time, or the longest if it took longer. */
  lemma SubstepsTakeTheFrame(elapsed: real)
    ensures SPRING_SUBSTEPS as real * SubstepTimeOf(elapsed) <= elapsed
    ensures elapsed <= LONGEST_STEP <==> SPRING_SUBSTEPS as real * SubstepTimeOf(elapsed) == elapsed
    ensures elapsed >= LONGEST_STEP ==> SPRING_SUBSTEPS as real * SubstepTimeOf(elapsed) == LONGEST_STEP
  {
  }

  lemma LateFrameIsCalm(root: real, elapsed: real)
    requires 0.0 < root <= 20.0 && 0.0 <= elapsed
    ensures SmallStep(Reach(root, SubstepTimeOf(elapsed)))
  {
    var time := SubstepTimeOf(elapsed);
    assert 0.0 <= time <= 0.025;
    var q := Reach(root, time);
    assert 0.0 <= q <= 0.5 by {
      Times(root, time);
      Times(root, 0.025 - time);
    }
    Times(q, 0.5 - q);
  }

  /** Up to a stiffness of 400 no frame, however late, makes a step too long for the spring. */
  lemma LateFramesAreCalm(root: real, stepped: real, clocks: seq<real>)
    requires 0.0 < root <= 20.0
    requires forall i :: 0 <= i < |clocks| ==> FrameTime(stepped, clocks, i) >= 0.0
    ensures Calm(root, Paces(stepped, clocks))
  {
    hide SubstepTimeOf, FrameTime, SmallStep, Reach;
    forall i | 0 <= i < |clocks| ensures SmallStep(Reach(root, Paces(stepped, clocks)[i])) {
      LateFrameIsCalm(root, FrameTime(stepped, clocks, i));
    }
  }
}
