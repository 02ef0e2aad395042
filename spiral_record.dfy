/**
 * The spiral record (src/Record.ts): an Archimedean spiral r = a + b·θ,
 * the adaptive angular step its stroke loop takes, and the bisection that
 * inverts its arc length.
 *
 * The closed-form arc length needs `Math.sqrt` and `Math.asinh`; they are
 * parameters here, and the properties that need them rely only on what
 * `IsSqrt` and `IsIncreasing` state.
 */
module Spiral {
  import opened Wrappers
  import opened Numeric
  import AudioAnalysis

  /** `Math.PI`, to the digits JavaScript prints it with. */
  const Pi: real := 3.141592653589793

  /** The options a record is built with; an absent one takes its default. */
  datatype RecordOptions = RecordOptions(
    a: Option<real>, b: Option<real>, thetaStart: Option<real>, rotations: Option<real>)

  /** One stroke of the spiral: its start and end angle and the radius at each. */
  datatype Line = Line(fromTheta: real, fromRadius: real, toTheta: real, toRadius: real)

  /** `x < y`, as a term the monotonicity quantifier below is instantiated on. */
  ghost predicate Below(x: real, y: real)
  {
    x < y
  }

  /**
   * `f` is strictly increasing on the closed interval [lo, hi]. The
   * quantifier fires only where a proof mentions `Below(x, y)`, which keeps
   * it from being instantiated on every pair of points the bisection visits.
   */
  ghost predicate StrictlyIncreasingOn(f: real -> real, lo: real, hi: real)
  {
    forall x, y {:trigger Below(x, y)} :: lo <= x && Below(x, y) && y <= hi ==> f(x) < f(y)
  }

  /**
   * The bisection of `findTheta`, one call per loop iteration: test the
   * midpoint of [low, high] and stop if it is within tolerance, otherwise
   * keep the half that the comparison with the target selects. With no
   * iterations left, the midpoint is returned untested.
   */
  function Bisection(arcLength: real -> real, target: real, tolerance: real,
                     low: real, high: real, iterations: nat): real
    decreases iterations
  {
    var t := low + (high - low) / 2.0;
    if iterations == 0 || Abs(arcLength(t) - target) < tolerance then t
    else if arcLength(t) > target then Bisection(arcLength, target, tolerance, low, t, iterations - 1)
    else Bisection(arcLength, target, tolerance, t, high, iterations - 1)
  }

  /** A midpoint within tolerance is the bisection's answer. */
  lemma BisectionStops(arcLength: real -> real, target: real, tolerance: real,
                       low: real, high: real, iterations: nat)
    requires Abs(arcLength(low + (high - low) / 2.0) - target) < tolerance
    ensures Bisection(arcLength, target, tolerance, low, high, iterations) == low + (high - low) / 2.0
  {
  }

  /** An iteration whose midpoint overshoots the target continues on the lower half. */
  lemma BisectionLower(arcLength: real -> real, target: real, tolerance: real,
                       low: real, high: real, iterations: nat, mid: real)
    requires iterations > 0 && mid == low + (high - low) / 2.0
    requires Abs(arcLength(mid) - target) >= tolerance && arcLength(mid) > target
    ensures Bisection(arcLength, target, tolerance, low, high, iterations)
            == Bisection(arcLength, target, tolerance, low, mid, iterations - 1)
  {
  }

  /** An iteration whose midpoint falls short of the target continues on the upper half. */
  lemma BisectionUpper(arcLength: real -> real, target: real, tolerance: real,
                       low: real, high: real, iterations: nat, mid: real)
    requires iterations > 0 && mid == low + (high - low) / 2.0
    requires Abs(arcLength(mid) - target) >= tolerance && arcLength(mid) <= target
    ensures Bisection(arcLength, target, tolerance, low, high, iterations)
            == Bisection(arcLength, target, tolerance, mid, high, iterations - 1)
  {
  }

  /** The bisection never leaves the interval it starts from. */
  lemma {:induction false} BisectionWithin(arcLength: real -> real, target: real, tolerance: real,
                                           low: real, high: real, iterations: nat)
    requires low <= high
    ensures low <= Bisection(arcLength, target, tolerance, low, high, iterations) <= high
    decreases iterations
  {
    var t := low + (high - low) / 2.0;
    if iterations > 0 && Abs(arcLength(t) - target) >= tolerance {
      if arcLength(t) > target {
        BisectionWithin(arcLength, target, tolerance, low, t, iterations - 1);
      } else {
        BisectionWithin(arcLength, target, tolerance, t, high, iterations - 1);
      }
    }
  }

  /**
   * `t` is the midpoint of [lo, hi], a sub-interval of [low, high] as wide
   * as [low, high] halved `iterations` times, whose arc lengths enclose the
   * target.
   */
  ghost predicate Bracket(arcLength: real -> real, target: real, low: real, high: real, iterations: nat,
                          lo: real, hi: real, t: real)
  {
    && low <= lo <= hi <= high
    && hi - lo == Halve(high - low, iterations)
    && t == lo + (hi - lo) / 2.0
    && arcLength(lo) <= target <= arcLength(hi)
  }

  /**
   * If the arc lengths at the ends of the search interval enclose the target,
   * the bisection either stops within tolerance or returns the midpoint of an
   * enclosing interval halved once per iteration. No monotonicity is needed.
   */
  lemma {:induction false} BisectionBrackets(arcLength: real -> real, target: real, tolerance: real,
                                             low: real, high: real, iterations: nat)
    requires low <= high && arcLength(low) <= target <= arcLength(high)
    ensures var t := Bisection(arcLength, target, tolerance, low, high, iterations);
            || Abs(arcLength(t) - target) < tolerance
            || exists lo, hi :: Bracket(arcLength, target, low, high, iterations, lo, hi, t)
    decreases iterations
  {
    var mid := low + (high - low) / 2.0;
    var t := Bisection(arcLength, target, tolerance, low, high, iterations);
    if iterations == 0 {
      assert Bracket(arcLength, target, low, high, iterations, low, high, t);
    } else if Abs(arcLength(mid) - target) >= tolerance {
      if arcLength(mid) > target {
        BisectionLower(arcLength, target, tolerance, low, high, iterations, mid);
        BisectionBrackets(arcLength, target, tolerance, low, mid, iterations - 1);
        if Abs(arcLength(t) - target) >= tolerance {
          var lo, hi :| Bracket(arcLength, target, low, mid, iterations - 1, lo, hi, t);
          BracketWithinHalf(arcLength, target, low, high, iterations, low, mid, lo, hi, t);
        }
      } else {
        BisectionUpper(arcLength, target, tolerance, low, high, iterations, mid);
        BisectionBrackets(arcLength, target, tolerance, mid, high, iterations - 1);
        if Abs(arcLength(t) - target) >= tolerance {
          var lo, hi :| Bracket(arcLength, target, mid, high, iterations - 1, lo, hi, t);
          BracketWithinHalf(arcLength, target, low, high, iterations, mid, high, lo, hi, t);
        }
      }
    }
  }

  /** A bracket of one half of [low, high], one iteration fewer, is a bracket of [low, high]. */
  lemma BracketWithinHalf(arcLength: real -> real, target: real, low: real, high: real, iterations: nat,
                          subLow: real, subHigh: real, lo: real, hi: real, t: real)
    requires iterations > 0 && low <= subLow <= subHigh <= high && subHigh - subLow == (high - low) / 2.0
    requires Bracket(arcLength, target, subLow, subHigh, iterations - 1, lo, hi, t)
    ensures Bracket(arcLength, target, low, high, iterations, lo, hi, t)
  {
    HalveFirst(high - low, iterations - 1);
  }

  /**
   * For a strictly increasing arc length, the bisection either stops within
   * tolerance or ends within half its last interval of the exact preimage:
   * every iteration halves the interval and keeps the preimage inside it.
   */
  lemma {:induction false} BisectionConverges(arcLength: real -> real, target: real, tolerance: real,
                                              low: real, high: real, iterations: nat, root: real)
    requires StrictlyIncreasingOn(arcLength, low, high)
    requires low <= root <= high && arcLength(root) == target
    ensures var t := Bisection(arcLength, target, tolerance, low, high, iterations);
            Abs(arcLength(t) - target) < tolerance || Abs(t - root) <= Halve(high - low, iterations + 1)
    decreases iterations
  {
    var t := low + (high - low) / 2.0;
    if iterations == 0 {
      assert Halve(high - low, 1) == (high - low) / 2.0;
    } else if Abs(arcLength(t) - target) >= tolerance {
      HalveFirst(high - low, iterations);
      assert t - low == high - t == (high - low) / 2.0;
      assert Below(t, root) ==> arcLength(t) < arcLength(root);
      assert Below(root, t) ==> arcLength(root) < arcLength(t);
      if arcLength(t) > target {
        BisectionConverges(arcLength, target, tolerance, low, t, iterations - 1, root);
      } else {
        BisectionConverges(arcLength, target, tolerance, t, high, iterations - 1, root);
      }
    }
  }

  class Record {
    /** The largest angular step of one stroke: two degrees. */
    static const ThetaDeltaMax: real := (2.0 * Pi) / 180.0
    static const Precision: real := 20.0
    static const DefaultA: real := 1.0
    static const DefaultB: real := Pi
    static const DefaultThetaStart: real := Pi * 8.0
    static const DefaultRotations: real := 20.0
    /**
     * The iteration cap of `findTheta`. A function rather than a constant, so
     * that the verifier does not unfold the bisection 10,000 times.
     */
    static function MaxIterations(): nat
    {
      10000
    }

    /** How many full turns the spiral makes before it stops. */
    const rotations: real
    /** Moves the centre point of the spiral outward from the origin. */
    const a: real
    /** The distance between loops, per radian. */
    const b: real
    /** The angle the spiral starts at; every 2π is one turn. */
    const thetaStart: real

    /** Each option overrides its default; `analysis` is accepted and not used. */
    constructor(analysis: AudioAnalysis.Analysis, options: RecordOptions)
      ensures a == options.a.GetOr(1.0)
      ensures b == options.b.GetOr(Pi)
      ensures thetaStart == options.thetaStart.GetOr(8.0 * Pi)
      ensures rotations == options.rotations.GetOr(20.0)
    {
      a := options.a.GetOr(DefaultA);
      b := options.b.GetOr(DefaultB);
      thetaStart := options.thetaStart.GetOr(DefaultThetaStart);
      rotations := options.rotations.GetOr(DefaultRotations);
    }

    /** The angle at which `draw` stops: `rotations · 2π`. */
    function ThetaEnd(): real
    {
      rotations * 2.0 * Pi
    }

    /** The radius at angle `t`. */
    function GetDistance(t: real): real
    {
      a + b * t
    }

    /** With a positive `b`, the radius grows with the angle. */
    lemma DistanceIncreasing(t1: real, t2: real)
      requires b > 0.0 && t1 < t2
      ensures GetDistance(t1) < GetDistance(t2)
    {
    }

    /** Successive turns lie `2π · b` apart: the spacing that makes the spiral Archimedean. */
    lemma TurnSpacing(t: real)
      ensures GetDistance(t + 2.0 * Pi) - GetDistance(t) == 2.0 * Pi * b
    {
    }

    /** The adaptive angular step `PRECISION / (2π · t)`; infinite at t = 0. */
    function ThetaDelta(t: real): (r: Num)
      ensures t > 0.0 ==> r.Finite? && r.value > 0.0
      ensures t == 0.0 ==> r == PosInfinity
      ensures t < 0.0 ==> r.Finite? && r.value < 0.0
    {
      Div(Precision, 2.0 * Pi * t)
    }

    /** The step `draw` takes at `theta`: `Math.min(THETA_DELTA_MAX, thetaDelta(theta))`. */
    function DrawStep(theta: real): (r: Num)
      ensures theta >= 0.0 ==> r.Finite? && 0.0 < r.value <= ThetaDeltaMax
      ensures theta < 0.0 ==> r.Finite? && r.value < 0.0
    {
      Min(Finite(ThetaDeltaMax), ThetaDelta(theta))
    }

    /** Further out, the step is no larger. */
    lemma DrawStepAntitone(t1: real, t2: real)
      requires 0.0 <= t1 <= t2
      ensures DrawStep(t1).value >= DrawStep(t2).value
    {
      if t1 > 0.0 {
        var d1, d2 := 2.0 * Pi * t1, 2.0 * Pi * t2;
        assert 0.0 < d1 <= d2;
        ReciprocalAntitone(Precision, d1, d2);
      }
    }

    static lemma ReciprocalAntitone(c: real, x: real, y: real)
      requires c > 0.0 && 0.0 < x <= y
      ensures c / x >= c / y
    {
      assert c / x * x == c && c / y * y == c;
      assert c / y * x <= c / y * y;
    }

    /** One stroke of `draw`, starting at `line.fromTheta` below the end angle. */
    ghost predicate IsStroke(line: Line)
    {
      && line.fromTheta < ThetaEnd()
      && DrawStep(line.fromTheta).Finite?
      && line.toTheta == line.fromTheta + DrawStep(line.fromTheta).value
      && line.fromRadius == GetDistance(line.fromTheta)
      && line.toRadius == GetDistance(line.toTheta)
    }

    /**
     * The strokes of `draw`, as angle pairs: starting at `thetaStart`, each
     * stroke ends where the next begins, angles strictly increase, and the
     * loop stops at the first angle at or beyond `rotations · 2π`.
     * For a negative start the source's loop would not terminate (the step is
     * negative there, see `DrawStepNegative`), hence the precondition.
     */
    method Draw() returns (lines: seq<Line>)
      requires thetaStart >= 0.0 || thetaStart >= ThetaEnd()
      ensures |lines| == 0 <==> thetaStart >= ThetaEnd()
      ensures |lines| > 0 ==> lines[0].fromTheta == thetaStart && lines[|lines| - 1].toTheta >= ThetaEnd()
      ensures forall i :: 0 <= i < |lines| ==> IsStroke(lines[i]) && lines[i].fromTheta < lines[i].toTheta
      ensures forall i :: 0 <= i < |lines| - 1 ==> lines[i].toTheta == lines[i + 1].fromTheta
      ensures forall i, j :: 0 <= i < j < |lines| ==> lines[i].fromTheta < lines[j].fromTheta
    {
      var theta := thetaStart;
      lines := [];
      ghost var end := ThetaEnd();
      // every step inside the loop is at least the step at the end angle
      ghost var minStep := if end > 0.0 then DrawStep(end).value else ThetaDeltaMax;
      ghost var budget: nat := 0;
      if theta < end {
        budget := StepsToCover(end - theta, minStep);
        CoversByProduct(budget, minStep, end - theta);
      }
      while theta < ThetaEnd()
        invariant end == ThetaEnd()
        invariant theta >= 0.0 || theta >= end
        invariant minStep > 0.0 && (end > 0.0 ==> minStep == DrawStep(end).value)
        invariant Covers(budget, minStep, end - theta)
        invariant Strokes(lines, theta)
        decreases budget
      {
        var start := theta;
        DrawStepAntitone(theta, end);
        theta := theta + DrawStep(theta).value;
        StrokesExtend(lines, start, theta);
        lines := lines + [Line(start, GetDistance(start), theta, GetDistance(theta))];
        BudgetShrinks(budget, minStep, end, start, theta);
        budget := budget - 1;
      }
    }

    /**
     * The strokes drawn so far, from `thetaStart` up to `theta`: chained end
     * to start, each one a step of `draw`, in increasing order of angle.
     */
    ghost predicate Strokes(lines: seq<Line>, theta: real)
    {
      && (|lines| == 0 ==> theta == thetaStart)
      && (|lines| > 0 ==> lines[0].fromTheta == thetaStart && lines[|lines| - 1].toTheta == theta)
      && (forall i :: 0 <= i < |lines| ==>
            IsStroke(lines[i]) && lines[i].fromTheta < lines[i].toTheta && lines[i].fromTheta < theta)
      && (forall i :: 0 <= i < |lines| - 1 ==> lines[i].toTheta == lines[i + 1].fromTheta)
      && (forall i, j :: 0 <= i < j < |lines| ==> lines[i].fromTheta < lines[j].fromTheta)
    }

    /** One more stroke of `draw` from `theta` keeps the strokes in shape. */
    lemma StrokesExtend(lines: seq<Line>, theta: real, next: real)
      requires Strokes(lines, theta) && 0.0 <= theta < ThetaEnd()
      requires next == theta + DrawStep(theta).value
      ensures Strokes(lines + [Line(theta, GetDistance(theta), next, GetDistance(next))], next)
    {
      var line := Line(theta, GetDistance(theta), next, GetDistance(next));
      var lines' := lines + [line];
      assert IsStroke(line) && theta < next;
      forall i | 0 <= i < |lines'|
        ensures IsStroke(lines'[i]) && lines'[i].fromTheta < lines'[i].toTheta && lines'[i].fromTheta < next
      {
        if i < |lines| {
          assert lines'[i] == lines[i];
        }
      }
      forall i, j | 0 <= i < j < |lines'|
        ensures lines'[i].fromTheta < lines'[j].fromTheta
      {
        if j < |lines| {
          assert lines'[i] == lines[i] && lines'[j] == lines[j];
        } else {
          assert lines'[i] == lines[i] && lines'[j] == line;
        }
      }
    }

    /** A number of steps of size `step` that covers `distance`. */
    static function StepsToCover(distance: real, step: real): (n: nat)
      requires distance > 0.0 && step > 0.0
      ensures n as real * step >= distance
    {
      var q := distance / step;
      assert q > 0.0;
      var n: nat := q.Floor + 1;
      assert n as real > q;
      assert n as real * step > q * step;
      n
    }

    /** `steps` steps of size `step` reach at least `distance`. */
    static ghost predicate Covers(steps: nat, step: real, distance: real)
      decreases steps
    {
      distance <= 0.0 || (steps > 0 && Covers(steps - 1, step, distance - step))
    }

    static lemma {:induction false} CoversByProduct(steps: nat, step: real, distance: real)
      requires step > 0.0 && steps as real * step >= distance
      ensures Covers(steps, step, distance)
      decreases steps
    {
      if distance > 0.0 {
        assert steps > 0;
        assert (steps - 1) as real * step == steps as real * step - step;
        CoversByProduct(steps - 1, step, distance - step);
      }
    }

    static lemma {:induction false} CoversShorter(steps: nat, step: real, distance: real, shorter: real)
      requires Covers(steps, step, distance) && shorter <= distance
      ensures Covers(steps, step, shorter)
      decreases steps
    {
      if shorter > 0.0 {
        CoversShorter(steps - 1, step, distance - step, shorter - step);
      }
    }

    /** A step of at least `minStep` from `start` to `next` uses up one step of the budget. */
    static lemma BudgetShrinks(budget: nat, minStep: real, end: real, start: real, next: real)
      requires start < end && next - start >= minStep
      requires Covers(budget, minStep, end - start)
      ensures budget > 0
      ensures Covers(budget - 1, minStep, end - next)
    {
      CoversShorter(budget - 1, minStep, end - start - minStep, end - next);
    }

    /** Below angle 0 the step is negative, so a loop started there moves away from its end. */
    lemma DrawStepNegative(theta: real)
      requires theta < 0.0
      ensures theta + DrawStep(theta).value < theta
    {
    }

    /** The angle after `n` strokes of `draw`'s loop body from `theta`, ignoring its guard. */
    function StepsFrom(theta: real, n: nat): real
      decreases n
    {
      if n == 0 then theta
      else
        var t := StepsFrom(theta, n - 1);
        t + DrawStep(t).value
    }

    /**
     * From a negative start every iterate of `draw` stays at or below the
     * start, so with a non-negative `rotations` the guard `theta < rotations·2π`
     * never fails and the source's loop does not terminate.
     */
    lemma {:induction false} DrawNeverEndsFromNegative(theta: real, n: nat)
      requires theta < 0.0
      ensures StepsFrom(theta, n) <= theta
      ensures rotations >= 0.0 ==> StepsFrom(theta, n) < ThetaEnd()
      decreases n
    {
      if n > 0 {
        DrawNeverEndsFromNegative(theta, n - 1);
        DrawStepNegative(StepsFrom(theta, n - 1));
      }
    }

    /** The closed-form arc length `½·a·(t·√(t²+1) + asinh t)`. */
    function ArcLength(sqrt: real -> real, asinh: real -> real, t: real): real
    {
      (1.0 / 2.0) * a * (sqrt(t * t + 1.0) * t + asinh(t))
    }

    /** `ArcLength` as a function value, for the bisection. */
    function ArcLengthFn(sqrt: real -> real, asinh: real -> real): (f: real -> real)
      ensures forall t :: f(t) == ArcLength(sqrt, asinh, t)
    {
      t => ArcLength(sqrt, asinh, t)
    }

    /** With a positive `a`, the arc length strictly increases from angle 0 on. */
    lemma ArcLengthIncreasing(sqrt: real -> real, asinh: real -> real, x: real, y: real)
      requires a > 0.0 && IsSqrt(sqrt) && IsIncreasing(asinh)
      requires 0.0 <= x < y
      ensures ArcLength(sqrt, asinh, x) < ArcLength(sqrt, asinh, y)
    {
      var sx, sy := sqrt(x * x + 1.0), sqrt(y * y + 1.0);
      SquareStrictlyIncreasing(x, y);
      SqrtStrictlyIncreasing(sqrt, x * x + 1.0, y * y + 1.0);
      SqrtPositive(sqrt, x * x + 1.0);
      ProductStrictlyIncreasing(sx, x, sy, y);
      assert asinh(x) < asinh(y);
      ScaleStrictlyIncreasing((1.0 / 2.0) * a, sx * x + asinh(x), sy * y + asinh(y));
    }

    /** The closed form is a valid input for the bisection: strictly increasing on every [0, hi]. */
    lemma ArcLengthFnIncreasing(sqrt: real -> real, asinh: real -> real, hi: real)
      requires a > 0.0 && IsSqrt(sqrt) && IsIncreasing(asinh)
      ensures StrictlyIncreasingOn(ArcLengthFn(sqrt, asinh), 0.0, hi)
    {
      var f := ArcLengthFn(sqrt, asinh);
      forall x, y | 0.0 <= x && Below(x, y) && y <= hi
        ensures f(x) < f(y)
      {
        ArcLengthIncreasing(sqrt, asinh, x, y);
      }
    }

    /** The range `findTheta` searches: [0, 2π·rotations]. */
    function SearchEnd(): real
    {
      2.0 * Pi * rotations
    }

    /**
     * `findTheta`: bisects [0, 2π·rotations] for at most 10,000 iterations,
     * stopping at the first midpoint whose arc length is within `tolerance`
     * of the target; otherwise it returns the last midpoint. The search
     * interval halves on every iteration, and while the target lies between
     * the arc lengths at the interval's ends it keeps lying between them.
     * `arcLength` stands for the closed form `ArcLength`.
     */
    method FindTheta(arcLength: real -> real, targetArcLength: real, tolerance: real := 0.1)
      returns (t: real)
      ensures t == Bisection(arcLength, targetArcLength, tolerance, 0.0, SearchEnd(), MaxIterations())
      ensures rotations >= 0.0 ==> 0.0 <= t <= SearchEnd()
    {
      var low := 0.0;
      var high := 2.0 * Pi * rotations;
      t := high / 2.0;
      var i := 0;
      ghost var answer := Bisection(arcLength, targetArcLength, tolerance, 0.0, SearchEnd(), MaxIterations());
      assert low == 0.0 && high == SearchEnd();
      while i < MaxIterations()
        invariant 0 <= i
        invariant Searching(arcLength, targetArcLength, tolerance, answer, low, high, t, i)
      {
        var currentL := arcLength(t);
        if Abs(currentL - targetArcLength) < tolerance {
          BisectionStops(arcLength, targetArcLength, tolerance, low, high, MaxIterations() - i);
          return;
        }
        SearchNarrows(arcLength, targetArcLength, tolerance, answer, low, high, t, i);
        if currentL > targetArcLength {
          high := t;
          var interval := high - low;
          t := low + interval / 2.0;
        } else {
          low := t;
          var interval := high - low;
          t := low + interval / 2.0;
        }
        i := i + 1;
      }
    }

    /**
     * The state of `findTheta`'s loop after `i` iterations that did not
     * stop: `t` is the midpoint of [low, high], which lies in the search
     * range and is that range halved `i` times, and bisecting it for the
     * remaining iterations gives the loop's result.
     */
    ghost predicate Searching(arcLength: real -> real, target: real, tolerance: real, answer: real,
                              low: real, high: real, t: real, i: nat)
    {
      && i <= MaxIterations()
      && t == low + (high - low) / 2.0
      && (rotations >= 0.0 ==> 0.0 <= low <= t <= high <= SearchEnd())
      && high - low == Halve(SearchEnd(), i)
      && Bisection(arcLength, target, tolerance, low, high, MaxIterations() - i) == answer
    }

    /** An iteration that does not stop keeps the half the comparison selects, and halves the width. */
    lemma SearchNarrows(arcLength: real -> real, target: real, tolerance: real, answer: real,
                        low: real, high: real, t: real, i: nat)
      requires Searching(arcLength, target, tolerance, answer, low, high, t, i) && i < MaxIterations()
      requires Abs(arcLength(t) - target) >= tolerance
      ensures arcLength(t) > target ==>
                Searching(arcLength, target, tolerance, answer, low, t, low + (t - low) / 2.0, i + 1)
      ensures arcLength(t) <= target ==>
                Searching(arcLength, target, tolerance, answer, t, high, t + (high - t) / 2.0, i + 1)
    {
      assert Halve(SearchEnd(), i + 1) == (high - low) / 2.0 == t - low == high - t;
      if arcLength(t) > target {
        BisectionLower(arcLength, target, tolerance, low, high, MaxIterations() - i, t);
      } else {
        BisectionUpper(arcLength, target, tolerance, low, high, MaxIterations() - i, t);
      }
    }

    /**
     * When the arc lengths at 0 and at 2π·rotations enclose the target,
     * `findTheta` either stops within tolerance or returns the midpoint of an
     * enclosing sub-interval of [0, 2π·rotations] that is 2π·rotations/2^10000
   * wide.
     */
    lemma FindThetaBrackets(arcLength: real -> real, target: real, tolerance: real)
      requires rotations >= 0.0 && arcLength(0.0) <= target <= arcLength(SearchEnd())
      ensures var t := Bisection(arcLength, target, tolerance, 0.0, SearchEnd(), MaxIterations());
              || Abs(arcLength(t) - target) < tolerance
              || exists lo, hi :: Bracket(arcLength, target, 0.0, SearchEnd(), MaxIterations(), lo, hi, t)
    {
      BisectionBrackets(arcLength, target, tolerance, 0.0, SearchEnd(), MaxIterations());
      assert SearchEnd() - 0.0 == SearchEnd();
    }

    /**
     * Inverting an arc length: for an angle in [0, 2π·rotations] and a
     * strictly increasing arc length, `findTheta` of the angle's arc length
     * comes back within tolerance in arc length, or within 2π·rotations/2^10001
     * of the angle itself.
     */
    lemma FindThetaRoundTrip(arcLength: real -> real, theta: real, tolerance: real)
      requires StrictlyIncreasingOn(arcLength, 0.0, SearchEnd())
      requires 0.0 <= theta <= SearchEnd()
      ensures var t := Bisection(arcLength, arcLength(theta), tolerance, 0.0, SearchEnd(), MaxIterations());
              || Abs(arcLength(t) - arcLength(theta)) < tolerance
              || Abs(t - theta) <= Halve(SearchEnd(), MaxIterations() + 1)
    {
      BisectionConverges(arcLength, arcLength(theta), tolerance, 0.0, SearchEnd(), MaxIterations(), theta);
      assert SearchEnd() - 0.0 == SearchEnd();
    }
  }
}
