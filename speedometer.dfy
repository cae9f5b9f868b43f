/**
 * The copy-speed estimator of the progress tracker: a log of (time, bytes copied)
 * samples trimmed to a trailing window, and an ordinary least-squares fit whose
 * slope is the speed. Times come from an integer clock (whole seconds) passed in by
 * the caller; sums are exact integers, and only the final quotients are `real`.
 */
module Speedometer {
  import opened Wrappers
  import opened Errors

  datatype Sample = Sample(time: int, value: int)

  /** Samples appear in clock order. */
  predicate Sorted(log: seq<Sample>)
  {
    forall i, j :: 0 <= i <= j < |log| ==> log[i].time <= log[j].time
  }

  /** `log.find_index { |l| now - l[0] < window }`, with `|log|` standing for nil. */
  function FirstInWindow(log: seq<Sample>, now: int, window: int): (i: nat)
    ensures i <= |log|
    ensures forall k :: 0 <= k < i ==> now - log[k].time >= window
    ensures i < |log| ==> now - log[i].time < window
  {
    if |log| == 0 then 0
    else if now - log[0].time < window then 0
    else 1 + FirstInWindow(log[1..], now, window)
  }

  /** Where the trimmed log starts: one sample before the first one inside the window. */
  function TrimFrom(log: seq<Sample>, now: int, window: int): nat
  {
    var i := FirstInWindow(log, now, window);
    if i > 0 then i - 1 else 0
  }

  /** The log that `<<` keeps after appending, `@log[i..-1]`. */
  function Trimmed(log: seq<Sample>, now: int, window: int): seq<Sample>
  {
    log[TrimFrom(log, now, window)..]
  }

  /**
   * Appending `(now, ft)` to a clock-ordered log and trimming it keeps the new sample
   * last, keeps every other retained sample but the first inside the window, drops
   * only samples outside the window, keeps the first as the single anchor before the
   * window when anything was dropped, and leaves at least two samples.
   */
  lemma {:induction false} TrimKeepsOneAnchor(old_log: seq<Sample>, now: int, ft: int, window: int)
    requires window > 0 && Sorted(old_log)
    requires |old_log| > 0 ==> old_log[|old_log| - 1].time <= now
    ensures var log := old_log + [Sample(now, ft)];
      var from := TrimFrom(log, now, window);
      var r := Trimmed(log, now, window);
      && from < |log|
      && r[|r| - 1] == Sample(now, ft)
      && Sorted(r)
      && (forall k :: 1 <= k < |r| ==> now - r[k].time < window)
      && (forall k :: 0 <= k < from ==> now - log[k].time >= window)
      && (from > 0 ==> now - r[0].time >= window)
      && (|old_log| > 0 ==> |r| >= 2)
  {
    var log := old_log + [Sample(now, ft)];
    SortedSnoc(old_log, Sample(now, ft));
    var i := FirstInWindow(log, now, window);
    assert now - log[|log| - 1].time < window;
    assert i < |log|;
    var from := TrimFrom(log, now, window);
    var r := Trimmed(log, now, window);
    SortedSuffix(log, from);
    forall k | 1 <= k < |r| ensures now - r[k].time < window {
      assert r[k] == log[from + k];
      assert log[i].time <= log[from + k].time;
    }
  }

  /** A sample no older than the newest keeps a log in clock order. */
  lemma SortedSnoc(log: seq<Sample>, s: Sample)
    requires Sorted(log) && (|log| > 0 ==> log[|log| - 1].time <= s.time)
    ensures Sorted(log + [s])
  {
    var l := log + [s];
    forall i, j | 0 <= i <= j < |l| ensures l[i].time <= l[j].time {
      if j == |log| && i < |log| {
        assert log[i].time <= log[|log| - 1].time;
      }
    }
  }

  /** A suffix of a log in clock order is in clock order. */
  lemma SortedSuffix(log: seq<Sample>, from: nat)
    requires Sorted(log) && from <= |log|
    ensures Sorted(log[from..])
  {
    var r := log[from..];
    forall i, j | 0 <= i <= j < |r| ensures r[i].time <= r[j].time {
      assert r[i] == log[from + i] && r[j] == log[from + j];
    }
  }

  /** The result of `linregress`: slope, intercept and whether the fit was singular. */
  datatype Regression = Regression(slope: real, intercept: real, singular: bool)

  function Sum(s: seq<int>): int
  {
    if |s| == 0 then 0 else Sum(s[..|s| - 1]) + s[|s| - 1]
  }

  function SumSq(s: seq<int>): int
  {
    if |s| == 0 then 0 else SumSq(s[..|s| - 1]) + s[|s| - 1] * s[|s| - 1]
  }

  function SumProd(x: seq<int>, y: seq<int>): int
    requires |x| == |y|
  {
    if |x| == 0 then 0 else SumProd(x[..|x| - 1], y[..|y| - 1]) + x[|x| - 1] * y[|y| - 1]
  }

  /** `n * Σx² - (Σx)²`, the denominator of the least-squares slope. */
  function Spread(x: seq<int>): int
  {
    |x| * SumSq(x) - Sum(x) * Sum(x)
  }

  /**
   * The closed form of the least-squares fit from the five sums: singular when
   * `n Σx² - (Σx)²` is zero, else the slope and intercept.
   */
  function FitOfSums(n: int, sx: int, sy: int, sxx: int, sxy: int): Regression
    requires n == 0 ==> sx == 0
  {
    var denom := n * sxx - sx * sx;
    if denom == 0 then Regression(0.0, 0.0, true)
    else
      var slope := (n * sxy - sx * sy) as real / denom as real;
      Regression(slope, sy as real / n as real - slope * sx as real / n as real, false)
  }

  /** The least-squares fit of `y` against `x`, failing when the lengths differ. */
  function LeastSquares(x: seq<int>, y: seq<int>): Result<Regression, Error>
  {
    if |x| != |y| then Failure(Error(ArgumentError, "x and y not the same length"))
    else Success(FitOfSums(|x|, Sum(x), Sum(y), SumSq(x), SumProd(x, y)))
  }

  /** The running sums over one more sample. */
  lemma SumsStep(x: seq<int>, y: seq<int>, i: nat)
    requires i < |x| == |y|
    ensures Sum(x[..i + 1]) == Sum(x[..i]) + x[i] && Sum(y[..i + 1]) == Sum(y[..i]) + y[i]
    ensures SumSq(x[..i + 1]) == SumSq(x[..i]) + x[i] * x[i] && SumSq(y[..i + 1]) == SumSq(y[..i]) + y[i] * y[i]
    ensures SumProd(x[..i + 1], y[..i + 1]) == SumProd(x[..i], y[..i]) + x[i] * y[i]
  {
    assert x[..i + 1][..i] == x[..i] && y[..i + 1][..i] == y[..i];
  }

  /** `Speedometer.linregress`: the five running sums accumulated in one pass. */
  method Linregress(x: seq<int>, y: seq<int>) returns (r: Result<Regression, Error>)
    ensures r == LeastSquares(x, y)
  {
    if |x| != |y| {
      return Failure(Error(ArgumentError, "x and y not the same length"));
    }
    var n := |x|;
    var xsum, ysum, xxsum, yysum, xysum := 0, 0, 0, 0, 0;
    var i := 0;
    while i < n
      invariant 0 <= i <= n
      invariant xsum == Sum(x[..i]) && ysum == Sum(y[..i])
      invariant xxsum == SumSq(x[..i]) && yysum == SumSq(y[..i])
      invariant xysum == SumProd(x[..i], y[..i])
    {
      SumsStep(x, y, i);
      xsum := xsum + x[i];
      ysum := ysum + y[i];
      xxsum := xxsum + x[i] * x[i];
      yysum := yysum + y[i] * y[i];
      xysum := xysum + x[i] * y[i];
      i := i + 1;
    }
    assert x[..n] == x && y[..n] == y;
    r := Success(FitOfSums(n, xsum, ysum, xxsum, xysum));
  }

  /** Σ (x_i - a)². */
  function SqDev(x: seq<int>, a: int): int
  {
    if |x| == 0 then 0 else SqDev(x[..|x| - 1], a) + (x[|x| - 1] - a) * (x[|x| - 1] - a)
  }

  predicate AllEqual(x: seq<int>)
  {
    forall i, j :: 0 <= i < |x| && 0 <= j < |x| ==> x[i] == x[j]
  }

  lemma {:induction false} SqDevExpand(x: seq<int>, a: int)
    ensures SqDev(x, a) == SumSq(x) - 2 * a * Sum(x) + |x| * a * a
  {
    if |x| > 0 {
      SqDevExpand(x[..|x| - 1], a);
    }
  }

  /** The squared deviations from `a` vanish exactly when every sample equals `a`. */
  lemma {:induction false} SqDevZero(x: seq<int>, a: int)
    ensures SqDev(x, a) >= 0
    ensures SqDev(x, a) == 0 <==> forall i :: 0 <= i < |x| ==> x[i] == a
  {
    if |x| > 0 {
      var init := x[..|x| - 1];
      SqDevZero(init, a);
      var d := x[|x| - 1] - a;
      SquareSign(d);
      if SqDev(x, a) == 0 {
        forall i | 0 <= i < |x| ensures x[i] == a {
          if i < |x| - 1 { assert x[i] == init[i]; }
        }
      }
      if forall i :: 0 <= i < |x| ==> x[i] == a {
        forall i | 0 <= i < |init| ensures init[i] == a {
          assert init[i] == x[i];
        }
      }
    }
  }

  lemma SquareSign(d: int)
    ensures d * d >= 0
    ensures d * d == 0 <==> d == 0
  {
  }

  /**
   * Lagrange's identity in one step: extending the sample by `a` grows the
   * denominator by the squared deviations of the old samples from `a`.
   */
  lemma SpreadStep(x: seq<int>, a: int)
    ensures Spread(x + [a]) == Spread(x) + SqDev(x, a)
  {
    var xa := x + [a];
    assert xa[..|xa| - 1] == x;
    SqDevExpand(x, a);
    SpreadAlgebra(|x|, Sum(x), SumSq(x), a, Spread(xa), Spread(x), SqDev(x, a));
  }

  /** `SpreadStep`'s arithmetic over the sums `s` and `q` of `n` samples. */
  lemma SpreadAlgebra(n: int, s: int, q: int, a: int, spread': int, spread: int, dev: int)
    requires spread' == (n + 1) * (q + a * a) - (s + a) * (s + a)
    requires spread == n * q - s * s && dev == q - 2 * a * s + n * a * a
    ensures spread' == spread + dev
  {
  }

  /** The regression is singular exactly when all the x values coincide. */
  lemma {:induction false} SpreadZeroIffAllEqual(x: seq<int>)
    ensures Spread(x) >= 0
    ensures Spread(x) == 0 <==> AllEqual(x)
  {
    if |x| > 0 {
      var init := x[..|x| - 1];
      var a := x[|x| - 1];
      assert x == init + [a];
      SpreadZeroIffAllEqual(init);
      SpreadStep(init, a);
      SqDevZero(init, a);
      if Spread(x) == 0 {
        forall i, j | 0 <= i < |x| && 0 <= j < |x| ensures x[i] == x[j] {
          if i < |x| - 1 { assert x[i] == init[i]; }
          if j < |x| - 1 { assert x[j] == init[j]; }
        }
      }
      if AllEqual(x) {
        forall i, j | 0 <= i < |init| && 0 <= j < |init| ensures init[i] == init[j] {
          assert init[i] == x[i] && init[j] == x[j];
        }
        forall i | 0 <= i < |init| ensures init[i] == a {
          assert init[i] == x[i];
        }
      }
    }
  }

  /** Every sample lies on the line `y = a x + b`. */
  predicate OnLine(x: seq<int>, y: seq<int>, a: int, b: int)
    requires |x| == |y|
  {
    forall i :: 0 <= i < |x| ==> y[i] == a * x[i] + b
  }

  /** Sums over samples lying on the line `y = a x + b`. */
  lemma {:induction false} SumsOfLine(x: seq<int>, y: seq<int>, a: int, b: int)
    requires |x| == |y| && OnLine(x, y, a, b)
    ensures Sum(y) == a * Sum(x) + |x| * b
    ensures SumProd(x, y) == a * SumSq(x) + b * Sum(x)
  {
    if |x| > 0 {
      var k := |x| - 1;
      var xs, ys := x[..k], y[..k];
      assert OnLine(xs, ys, a, b) by {
        forall i | 0 <= i < k ensures ys[i] == a * xs[i] + b {
          assert ys[i] == y[i] && xs[i] == x[i];
        }
      }
      SumsOfLine(xs, ys, a, b);
      var xl, yl := x[k], y[k];
      assert yl == a * xl + b;
      assert Sum(y) == Sum(ys) + yl;
      assert Sum(x) == Sum(xs) + xl;
      assert SumSq(x) == SumSq(xs) + xl * xl;
      assert SumProd(x, y) == SumProd(xs, ys) + xl * yl;
      LineStep(k, Sum(ys), SumProd(xs, ys), SumSq(xs), Sum(xs), xl, yl, a, b,
               Sum(y), SumProd(x, y), SumSq(x), Sum(x));
    }
  }

  /** One sample's contribution to the sums of `SumsOfLine`. */
  lemma LineStep(n: int, sy: int, sxy: int, sxx: int, sx: int, xl: int, yl: int, a: int, b: int,
                 sy': int, sxy': int, sxx': int, sx': int)
    requires sy == a * sx + n * b && sxy == a * sxx + b * sx && yl == a * xl + b
    requires sy' == sy + yl && sxy' == sxy + xl * yl && sxx' == sxx + xl * xl && sx' == sx + xl
    ensures sy' == a * sx' + (n + 1) * b
    ensures sxy' == a * sxx' + b * sx'
  {
  }

  /** The slope numerator of samples on `y = a x + b` is `a` times the denominator. */
  lemma LineNumerator(n: int, sx: int, sxx: int, a: int, b: int)
    ensures n * (a * sxx + b * sx) - sx * (a * sx + n * b) == a * (n * sxx - sx * sx)
  {
  }

  lemma DivExact(a: int, d: int)
    requires d != 0
    ensures (a * d) as real / d as real == a as real
  {
  }

  lemma InterceptOfLine(sy: int, sx: int, n: int, a: int, b: int)
    requires n > 0 && sy == a * sx + n * b
    ensures sy as real / n as real - a as real * sx as real / n as real == b as real
  {
  }

  /** The closed form recovers the line from the sums of samples on it. */
  lemma FitOfLine(n: int, sx: int, sxx: int, sy: int, sxy: int, a: int, b: int)
    requires n > 0 && n * sxx - sx * sx != 0
    requires sy == a * sx + n * b && sxy == a * sxx + b * sx
    ensures FitOfSums(n, sx, sy, sxx, sxy) == Regression(a as real, b as real, false)
  {
    LineNumerator(n, sx, sxx, a, b);
    DivExact(a, n * sxx - sx * sx);
    InterceptOfLine(sy, sx, n, a, b);
  }

  /** Samples lying on a line `y = a x + b` with distinct x values are fitted exactly. */
  lemma LeastSquaresFitsLine(x: seq<int>, y: seq<int>, a: int, b: int)
    requires |x| == |y| && !AllEqual(x) && OnLine(x, y, a, b)
    ensures LeastSquares(x, y) == Success(Regression(a as real, b as real, false))
  {
    SpreadZeroIffAllEqual(x);
    SumsOfLine(x, y, a, b);
    assert |x| > 0;
    FitOfLine(|x|, Sum(x), SumSq(x), Sum(y), SumProd(x, y), a, b);
  }

  /**
   * Ruby's `Float#round(2)`: to the nearest hundredth, halves away from zero
   * (on exact reals, without the binary-float representation error).
   */
  function Round2(r: real): (q: real)
    ensures -0.005 <= q - r <= 0.005
  {
    if r >= 0.0 then ((r * 100.0 + 0.5).Floor as real) / 100.0
    else -(((-r * 100.0 + 0.5).Floor as real) / 100.0)
  }

  /** Elapsed times relative to the first sample, the regression's x values. */
  function Times(log: seq<Sample>): seq<int>
  {
    seq(|log|, i requires 0 <= i < |log| => log[i].time - log[0].time)
  }

  /** The logged values, the regression's y values. */
  function Values(log: seq<Sample>): seq<int>
  {
    seq(|log|, i requires 0 <= i < |log| => log[i].value)
  }

  /** What `speed` reports for a log: nil, or the fitted slope rounded to hundredths. */
  function SpeedOf(log: seq<Sample>): Option<real>
  {
    if |log| < 2 then None
    else
      match LeastSquares(Times(log), Values(log))
      case Success(fit) => if fit.singular then None else Some(Round2(fit.slope))
      case Failure(_) => None
  }

  /** Speed is reported exactly when two samples were taken at different times. */
  lemma SpeedDefinedIff(log: seq<Sample>)
    ensures SpeedOf(log).Some? <==> exists i, j :: 0 <= i < |log| && 0 <= j < |log| && log[i].time != log[j].time
  {
    var x := Times(log);
    SpreadZeroIffAllEqual(x);
    if exists i, j :: 0 <= i < |log| && 0 <= j < |log| && log[i].time != log[j].time {
      var i, j :| 0 <= i < |log| && 0 <= j < |log| && log[i].time != log[j].time;
      assert x[i] != x[j];
    }
    if !AllEqual(x) {
      var i, j :| 0 <= i < |x| && 0 <= j < |x| && x[i] != x[j];
      assert log[i].time != log[j].time;
    }
  }

  /** Samples all taken at one clock reading give no speed: the fit is singular. */
  lemma SameClockNoSpeed(log: seq<Sample>)
    requires forall i :: 0 <= i < |log| ==> log[i].time == log[0].time
    ensures SpeedOf(log) == None
  {
    var x := Times(log);
    SpreadZeroIffAllEqual(x);
    assert AllEqual(x);
  }

  lemma RoundWhole(k: int)
    ensures Round2(k as real) == k as real
  {
    if k >= 0 {
      assert (k as real * 100.0 + 0.5).Floor == k * 100;
    } else {
      assert (-(k as real) * 100.0 + 0.5).Floor == -k * 100;
    }
  }

  /** A steady copy rate of `rate` bytes per clock unit is reported as exactly `rate`. */
  lemma SteadyRateIsReported(log: seq<Sample>, rate: int)
    requires |log| >= 2 && log[0].time != log[1].time
    requires forall i :: 0 <= i < |log| ==> log[i].value == log[0].value + rate * (log[i].time - log[0].time)
    ensures SpeedOf(log) == Some(rate as real)
  {
    var x, y := Times(log), Values(log);
    assert x[0] != x[1];
    LeastSquaresFitsLine(x, y, rate, log[0].value);
    RoundWhole(rate);
  }

  class Speedometer {
    /** The window duration, in clock units. */
    const window: int
    /** `[time, f(time)]` samples, oldest first. */
    var log: seq<Sample>

    ghost predicate Valid()
      reads this
    {
      window > 0 && |log| >= 1 && Sorted(log)
    }

    /** The newest sample's time; the clock must not go back before it. */
    function LastTime(): int
      reads this
      requires Valid()
    {
      log[|log| - 1].time
    }

    /** `Speedometer.new(window, initial_value)` at clock reading `now`. */
    constructor (window: int, initialValue: int, now: int)
      requires window > 0
      ensures Valid() && this.window == window
      ensures log == [Sample(now, initialValue)]
    {
      this.window := window;
      log := [Sample(now, initialValue)];
    }

    /** `<<`: log `ft` at `now`, then trim the log to the window plus one anchor. */
    method Append(ft: int, now: int)
      requires Valid() && LastTime() <= now
      modifies this
      ensures Valid() && |log| >= 2 && log[|log| - 1] == Sample(now, ft)
      ensures log == Trimmed(old(log) + [Sample(now, ft)], now, window)
    {
      TrimKeepsOneAnchor(log, now, ft, window);
      var l := log + [Sample(now, ft)];
      var i := 0;
      while i < |l| && now - l[i].time >= window
        invariant 0 <= i <= |l|
        invariant forall k :: 0 <= k < i ==> now - l[k].time >= window
      {
        i := i + 1;
      }
      FirstInWindowUnique(l, now, window, i);
      var from := if i > 0 then i - 1 else 0;
      assert from == TrimFrom(l, now, window);
      log := l[from..];
    }

    /** `speed`: nil with fewer than two samples or a singular fit, else the slope. */
    method Speed() returns (s: Option<real>)
      requires Valid()
      ensures s == SpeedOf(log)
    {
      if |log| < 2 {
        return None;
      }
      var x, y := [], [];
      var firstTime := log[0].time;
      var i := 0;
      while i < |log|
        invariant 0 <= i <= |log|
        invariant x == Times(log)[..i] && y == Values(log)[..i]
      {
        x := x + [log[i].time - firstTime];
        y := y + [log[i].value];
        i := i + 1;
      }
      assert x == Times(log) && y == Values(log);
      var fit := Linregress(x, y);
      s := if fit.Success? && !fit.value.singular then Some(Round2(fit.value.slope)) else None;
    }
  }

  /** A fresh speedometer has a single sample and reports no speed. */
  method FreshHasNoSpeed(window: int, now: int) returns (speed: Option<real>)
    requires window > 0
    ensures speed == None
  {
    var m := new Speedometer(window, 0, now);
    speed := m.Speed();
  }

  /** Ten units logged ten clock units after a zero start give a speed of 1.0. */
  method TwoPointSpeed() returns (speed: Option<real>)
    ensures speed == Some(1.0)
  {
    var m := new Speedometer(600, 0, 0);
    m.Append(10, 10);
    assert m.log == [Sample(0, 0), Sample(10, 10)];
    SteadyRateIsReported(m.log, 1);
    speed := m.Speed();
  }

  lemma SumsSnoc(x: seq<int>, y: seq<int>, a: int, b: int)
    requires |x| == |y|
    ensures Sum(x + [a]) == Sum(x) + a && SumSq(x + [a]) == SumSq(x) + a * a
    ensures Sum(y + [b]) == Sum(y) + b
    ensures SumProd(x + [a], y + [b]) == SumProd(x, y) + a * b
  {
    assert (x + [a])[..|x|] == x && (y + [b])[..|y|] == y;
  }

  /**
   * Samples at clock 0 (the initial zero), 10, 20, 30, 40, 300, 610 and 620 with a
   * window of 600 keep six samples, the oldest being the one logged at 20 (value
   * 716), and the speed is 34.78.
   */
  method WindowExample() returns (log: seq<Sample>, speed: Option<real>)
    ensures |log| == 6 && log[0].value == 716
    ensures speed == Some(34.78)
  {
    var m := WindowSamples();
    log := m.log;
    ExampleSpeed();
    speed := m.Speed();
  }

  /** The samples of `WindowExample` logged one after another. */
  method WindowSamples() returns (m: Speedometer)
    ensures fresh(m) && m.Valid()
    ensures m.log == [Sample(20, 716), Sample(30, 1063), Sample(40, 1393),
                      Sample(300, 10472), Sample(610, 21208), Sample(620, 21597)]
  {
    m := new Speedometer(600, 0, 0);
    ghost var initial := m.log;
    m.Append(431, 10);
    m.Append(716, 20);
    m.Append(1063, 30);
    m.Append(1393, 40);
    m.Append(10472, 300);
    m.Append(21208, 610);
    m.Append(21597, 620);
    WindowTrace(initial);
  }

  /** The logs that `<<` leaves after each sample of `WindowExample`. */
  lemma WindowTrace(l0: seq<Sample>)
    requires l0 == [Sample(0, 0)]
    ensures
      var l1 := Trimmed(l0 + [Sample(10, 431)], 10, 600);
      var l2 := Trimmed(l1 + [Sample(20, 716)], 20, 600);
      var l3 := Trimmed(l2 + [Sample(30, 1063)], 30, 600);
      var l4 := Trimmed(l3 + [Sample(40, 1393)], 40, 600);
      var l5 := Trimmed(l4 + [Sample(300, 10472)], 300, 600);
      var l6 := Trimmed(l5 + [Sample(610, 21208)], 610, 600);
      var l7 := Trimmed(l6 + [Sample(620, 21597)], 620, 600);
      l7 == [Sample(20, 716), Sample(30, 1063), Sample(40, 1393),
             Sample(300, 10472), Sample(610, 21208), Sample(620, 21597)]
  {
    // the logs as literals first, before any trimming fact is in scope
    var l1 := l0 + [Sample(10, 431)];
    var l2 := l1 + [Sample(20, 716)];
    var l3 := l2 + [Sample(30, 1063)];
    var l4 := l3 + [Sample(40, 1393)];
    var l5 := l4 + [Sample(300, 10472)];
    assert l5 == [Sample(0, 0), Sample(10, 431), Sample(20, 716), Sample(30, 1063),
                  Sample(40, 1393), Sample(300, 10472)];
    var l6 := l5[1..] + [Sample(610, 21208)];
    assert l6 == [Sample(10, 431), Sample(20, 716), Sample(30, 1063),
                  Sample(40, 1393), Sample(300, 10472), Sample(610, 21208)];
    assert l6[1..] + [Sample(620, 21597)] == [Sample(20, 716), Sample(30, 1063), Sample(40, 1393),
                                             Sample(300, 10472), Sample(610, 21208), Sample(620, 21597)];
    AppendDropsOne(l6, Sample(620, 21597), 600);
    AppendDropsOne(l5, Sample(610, 21208), 600);
    AppendInsideWindow(l4, Sample(300, 10472), 600);
    AppendInsideWindow(l3, Sample(40, 1393), 600);
    AppendInsideWindow(l2, Sample(30, 1063), 600);
    AppendInsideWindow(l1, Sample(20, 716), 600);
    AppendInsideWindow(l0, Sample(10, 431), 600);
  }

  lemma ExampleSpeed()
    ensures SpeedOf([Sample(20, 716), Sample(30, 1063), Sample(40, 1393),
                     Sample(300, 10472), Sample(610, 21208), Sample(620, 21597)]) == Some(34.78)
  {
    var log := [Sample(20, 716), Sample(30, 1063), Sample(40, 1393),
                Sample(300, 10472), Sample(610, 21208), Sample(620, 21597)];
    assert Times(log) == [0, 10, 20, 280, 590, 600];
    assert Values(log) == [716, 1063, 1393, 10472, 21208, 21597];
    ExampleSums();
    ExampleFit();
  }

  /** The five sums of the worked example. */
  lemma ExampleSums()
    ensures var x, y := [0, 10, 20, 280, 590, 600], [716, 1063, 1393, 10472, 21208, 21597];
      Sum(x) == 1500 && SumSq(x) == 787000 && Sum(y) == 56449 && SumProd(x, y) == 28441570
  {
    var x0: seq<int>, y0: seq<int> := [], [];
    SumsSnoc(x0, y0, 0, 716);
    var x1, y1 := x0 + [0], y0 + [716];
    SumsSnoc(x1, y1, 10, 1063);
    var x2, y2 := x1 + [10], y1 + [1063];
    SumsSnoc(x2, y2, 20, 1393);
    var x3, y3 := x2 + [20], y2 + [1393];
    SumsSnoc(x3, y3, 280, 10472);
    var x4, y4 := x3 + [280], y3 + [10472];
    SumsSnoc(x4, y4, 590, 21208);
    var x5, y5 := x4 + [590], y4 + [21208];
    SumsSnoc(x5, y5, 600, 21597);
    var x6, y6 := x5 + [600], y5 + [21597];
    assert x6 == [0, 10, 20, 280, 590, 600];
    assert y6 == [716, 1063, 1393, 10472, 21208, 21597];
  }

  /** The worked example's sums give a slope of 34.78 after rounding. */
  lemma ExampleFit()
    ensures var fit := FitOfSums(6, 1500, 56449, 787000, 28441570);
      !fit.singular && Round2(fit.slope) == 34.78
  {
    assert 6 * 787000 - 1500 * 1500 == 2472000;
    assert 6 * 28441570 - 1500 * 56449 == 85975920;
    var slope := 85975920 as real / 2472000 as real;
    assert (slope * 100.0 + 0.5).Floor == 3478;
  }

  /** Appending a sample whose window still holds the oldest sample trims nothing. */
  lemma AppendInsideWindow(log: seq<Sample>, s: Sample, window: int)
    requires |log| > 0 && s.time - log[0].time < window
    ensures Trimmed(log + [s], s.time, window) == log + [s]
  {
    FirstInWindowUnique(log + [s], s.time, window, 0);
  }

  /** Appending a sample whose window starts after the second-oldest sample drops the oldest one. */
  lemma AppendDropsOne(log: seq<Sample>, s: Sample, window: int)
    requires |log| > 2 && s.time - log[0].time >= window && s.time - log[1].time >= window
    requires s.time - log[2].time < window
    ensures Trimmed(log + [s], s.time, window) == log[1..] + [s]
  {
    FirstInWindowUnique(log + [s], s.time, window, 2);
  }

  lemma FirstInWindowUnique(log: seq<Sample>, now: int, window: int, i: int)
    requires 0 <= i <= |log|
    requires forall k :: 0 <= k < i ==> now - log[k].time >= window
    requires i < |log| ==> now - log[i].time < window
    ensures i == FirstInWindow(log, now, window)
  {
  }
}
