/**
  One ankle actuator's control thread: the decision of the current it commands each cycle
  (torque to current, clamp into the safety bounds, thermal shut-off branch), the
  bookkeeping of its gait estimate and per-cycle record, and the zeroing procedure that
  fixes the angle offsets before it runs.

  The device is modelled by what the thread sends it: `commands`, the sequence of motor
  currents (mA) in the order they are commanded. What the device returns is an input: a
  `Frame` per read. The assistance profile, the transmission ratio lookup and the thermal
  model are outside this model and enter as parameters.
*/
module ExoThread {
  import opened Common
  import opened Constants
  import opened Coordination
  import opened Filters

  // ------------------------------------------------------------ values read and logged

  /** One `flexdevice.read()`, in device units. */
  datatype Frame = Frame(
    stateTime: int, temperature: int,
    accelx: int, accely: int, accelz: int,
    gyrox: int, gyroy: int, gyroz: int,
    ankAng: int, ankVel: int, motAng: int, motVel: int,
    motCur: int, motVolt: int, battVolt: int, battCurr: int)

  /** A value of the per-cycle record: `None` until first written, a number or a flag. */
  datatype Value = Missing | Num(x: real) | Flag(b: bool)

  function Abs(x: real): real {
    if x < 0.0 then -x else x
  }

  // -------------------------------------------------------- torque -> current -> command

  /** Python's `int(x)` on a float: truncation toward zero. */
  function TruncateTowardZero(x: real): (r: int)
    ensures x >= 0.0 ==> r >= 0
    ensures x <= 0.0 ==> r <= 0
    ensures Abs(r as real) <= Abs(x) < Abs(r as real) + 1.0
  {
    if x >= 0.0 then x.Floor else -((-x).Floor)
  }

  /**
    `torque_2_current`: the current (mA) that yields `torque` through ratio `n`, efficiency
    and torque constant, truncated toward zero. The source divides by `n`, so it needs n != 0.
  */
  function TorqueToCurrent(torque: real, n: real): (r: int)
    requires n != 0.0
    ensures var q := torque / (n * EFFICIENCY * Kt);
            (q >= 0.0 ==> r >= 0) && (q <= 0.0 ==> r <= 0) &&
            Abs(r as real) <= Abs(q) < Abs(r as real) + 1.0
  {
    TruncateTowardZero(torque / (n * EFFICIENCY * Kt))
  }

  lemma TruncateMonotone(x: real, y: real)
    requires x <= y
    ensures TruncateTowardZero(x) <= TruncateTowardZero(y)
  {
    if x >= 0.0 {
      assert x.Floor <= y.Floor by { assert x.Floor as real <= x <= y < y.Floor as real + 1.0; }
    } else if y <= 0.0 {
      assert (-y).Floor <= (-x).Floor by { assert (-y).Floor as real <= -y <= -x < (-x).Floor as real + 1.0; }
    }
  }

  /** For a positive ratio, more torque never asks for less current. */
  lemma TorqueToCurrentMonotone(t1: real, t2: real, n: real)
    requires n > 0.0 && t1 <= t2
    ensures TorqueToCurrent(t1, n) <= TorqueToCurrent(t2, n)
  {
    var d := n * EFFICIENCY * Kt;
    assert d > 0.0;
    assert t1 / d <= t2 / d;
    TruncateMonotone(t1 / d, t2 / d);
  }

  /** 2 N·m through a ratio of 10 asks for 1522 mA, which the clamp leaves alone. */
  lemma TorqueToCurrentExample()
    ensures TorqueToCurrent(2.0, 10.0) == 1522
    ensures Vet(TorqueToCurrent(2.0, 10.0)) == 1522
  {
    var d := 10.0 * EFFICIENCY * Kt;
    assert d == 0.001314;
    var q := 2.0 / d;
    assert q * d == 2.0;
    assert 1522.0 * d < q * d < 1523.0 * d;
    QuotientBetween(q, d, 1522.0, 1523.0);
  }

  lemma QuotientBetween(q: real, d: real, lo: real, hi: real)
    requires d > 0.0 && lo * d < q * d < hi * d
    ensures lo < q < hi
  {
  }

  /** `max(min(c, MAX_ALLOWABLE_CURRENT), BIAS_CURRENT)`. */
  function Vet(c: int): (r: int)
    ensures BIAS_CURRENT <= r <= MAX_ALLOWABLE_CURRENT
    ensures BIAS_CURRENT <= c <= MAX_ALLOWABLE_CURRENT ==> r == c
    ensures c < BIAS_CURRENT ==> r == BIAS_CURRENT
    ensures c > MAX_ALLOWABLE_CURRENT ==> r == MAX_ALLOWABLE_CURRENT
  {
    var m := if c < MAX_ALLOWABLE_CURRENT then c else MAX_ALLOWABLE_CURRENT;
    if m > BIAS_CURRENT then m else BIAS_CURRENT
  }

  /** Clamping twice is clamping once. */
  lemma VetIdempotent(c: int)
    ensures Vet(Vet(c)) == Vet(c)
  {
  }

  /** With a sign of ±1 the commanded magnitude stays inside the safety bounds. */
  lemma IssuedMagnitudeInBounds(sign: int, c: int)
    requires sign == 1 || sign == -1
    ensures var i := sign * Vet(c);
            BIAS_CURRENT <= (if i < 0 then -i else i) <= MAX_ALLOWABLE_CURRENT
  {
  }

  // ---------------------------------------------------------------- zeroing procedure

  const MOTOR_VEL_THRESHOLD: real := 100.0
  const ANKLE_VEL_THRESHOLD: real := 1.0
  const PULL_CURRENT: int := 1000     // mA
  const FILT_SIZE: nat := 2500
  const MOVING_AVERAGE_LIMIT: real := 0.95

  function AnkleAngle(ankEncSign: int, f: Frame): real {
    ankEncSign as real * f.ankAng as real * ENC_CLICKS_TO_DEG
  }

  function MotorAngle(motorSign: int, f: Frame): real {
    motorSign as real * f.motAng as real * ENC_CLICKS_TO_DEG
  }

  /** The "is-moving" test: |motor velocity| > 100 or |ankle velocity / 10| > 1. */
  predicate IsMoving(f: Frame) {
    Abs(f.motVel as real) > MOTOR_VEL_THRESHOLD || Abs(f.ankVel as real / 10.0) > ANKLE_VEL_THRESHOLD
  }

  /** The same test on the raw integers: the ankle threshold is 10 raw units. */
  lemma IsMovingOnRawUnits(f: Frame)
    ensures IsMoving(f) <==> f.motVel > 100 || f.motVel < -100 || f.ankVel > 10 || f.ankVel < -10
  {
  }

  function Indicator(f: Frame): real {
    if IsMoving(f) then 1.0 else 0.0
  }

  function Indicators(fs: seq<Frame>): seq<real> {
    seq(|fs|, i requires 0 <= i < |fs| => Indicator(fs[i]))
  }

  function MotorAngles(motorSign: int, fs: seq<Frame>): seq<real> {
    seq(|fs|, i requires 0 <= i < |fs| => MotorAngle(motorSign, fs[i]))
  }

  function AnkleAngles(ankEncSign: int, fs: seq<Frame>): seq<real> {
    seq(|fs|, i requires 0 <= i < |fs| => AnkleAngle(ankEncSign, fs[i]))
  }

  /** The is-moving average after samples 0..k have gone through the filter. */
  function MovingAverageAt(fs: seq<Frame>, k: nat): real
    requires k < |fs|
  {
    Mean(Window(0.0, FILT_SIZE, Indicators(fs[..k + 1])))
  }

  /**
    The loop's exit test at sample k: the is-moving average exceeds 0.95 and the grace
    counter, stepped once per earlier sample, has reached FILT_SIZE.
  */
  predicate StopsAt(fs: seq<Frame>, k: nat)
    requires k < |fs|
  {
    MovingAverageAt(fs, k) > MOVING_AVERAGE_LIMIT && k >= FILT_SIZE
  }

  /** The first sample at or after `from` on which the zeroing loop stops, if any. */
  function FirstStop(fs: seq<Frame>, from: nat): (r: Option<nat>)
    requires from <= |fs|
    ensures r.Some? ==> from <= r.value < |fs| && StopsAt(fs, r.value)
    ensures r.Some? ==> forall j :: from <= j < r.value ==> !StopsAt(fs, j)
    ensures r.None? <==> forall j :: from <= j < |fs| ==> !StopsAt(fs, j)
    decreases |fs| - from
  {
    if from == |fs| then None
    else if StopsAt(fs, from) then Some(from)
    else FirstStop(fs, from + 1)
  }

  /** No sample before `n` passes the exit test. */
  ghost predicate NoStopBefore(fs: seq<Frame>, n: int)
    requires n <= |fs|
  {
    forall j :: 0 <= j < n ==> !StopsAt(fs, j)
  }

  lemma NoStopExtends(fs: seq<Frame>, i: nat)
    requires i < |fs| && NoStopBefore(fs, i) && !StopsAt(fs, i)
    ensures NoStopBefore(fs, i + 1)
  {
  }

  /** A stop at k with none before it is the first stop. */
  lemma {:induction false} FirstStopIs(fs: seq<Frame>, k: nat)
    requires k < |fs| && StopsAt(fs, k)
    requires NoStopBefore(fs, k)
    ensures FirstStop(fs, 0) == Some(k)
  {
    var r := FirstStop(fs, 0);
    assert r.Some? by { assert !(forall j :: 0 <= j < |fs| ==> !StopsAt(fs, j)); }
    assert r.value == k by {
      assert !StopsAt(fs, r.value) || r.value >= k;
      assert r.value <= k;
    }
  }

  /** The offsets the zeroing loop latches when it stops at sample k: the angle window averages. */
  function MotorZeroAt(motorSign: int, fs: seq<Frame>, k: nat): real
    requires k < |fs|
  {
    Mean(Window(0.0, FILT_SIZE, MotorAngles(motorSign, fs[..k + 1])))
  }

  function AnkleZeroAt(ankEncSign: int, fs: seq<Frame>, k: nat): real
    requires k < |fs|
  {
    Mean(Window(0.0, FILT_SIZE, AnkleAngles(ankEncSign, fs[..k + 1])))
  }

  function CountMoving(fs: seq<Frame>): nat {
    if |fs| == 0 then 0 else (if IsMoving(fs[0]) then 1 else 0) + CountMoving(fs[1..])
  }

  lemma {:induction false} SumOfIndicators(fs: seq<Frame>)
    ensures Sum(Indicators(fs)) == CountMoving(fs) as real
  {
    if |fs| != 0 {
      var rest := fs[1..];
      assert Indicators(fs)[1..] == Indicators(rest);
      SumOfIndicators(rest);
    }
  }

  /**
    When the loop stops at sample k, more than 95% of the last FILT_SIZE samples were
    "moving" (at least 2376 of 2500): the exit test rewards motion, not stillness.
  */
  lemma StopMeansMostlyMoving(fs: seq<Frame>, k: nat)
    requires k < |fs| && StopsAt(fs, k)
    ensures CountMoving(fs[k + 1 - FILT_SIZE..k + 1]) > 2375
  {
    var xs := Indicators(fs[..k + 1]);
    WindowOfLongHistory(0.0, FILT_SIZE, xs);
    var recent := fs[k + 1 - FILT_SIZE..k + 1];
    assert xs[|xs| - FILT_SIZE..] == Indicators(recent);
    SumOfIndicators(recent);
  }

  /** A subject who never moves never ends the zeroing loop. */
  lemma StillSubjectNeverStops(fs: seq<Frame>)
    requires forall i :: 0 <= i < |fs| ==> !IsMoving(fs[i])
    ensures FirstStop(fs, 0) == None
  {
    forall k | 0 <= k < |fs| ensures !StopsAt(fs, k) {
      NoStopWhileStill(fs, k);
    }
  }

  lemma NoStopWhileStill(fs: seq<Frame>, k: nat)
    requires k < |fs|
    requires forall i :: 0 <= i <= k ==> !IsMoving(fs[i])
    ensures MovingAverageAt(fs, k) == 0.0
  {
    var xs := Indicators(fs[..k + 1]);
    forall i | 0 <= i < |xs| ensures xs[i] == 0.0 {
      assert fs[..k + 1][i] == fs[i];
    }
    ZeroWindow(xs);
  }

  /** Updates that are all 0 leave a zero-started window summing to 0. */
  lemma ZeroWindow(xs: seq<real>)
    requires forall i :: 0 <= i < |xs| ==> xs[i] == 0.0
    ensures Sum(Window(0.0, FILT_SIZE, xs)) == 0.0
  {
    var w := Window(0.0, FILT_SIZE, xs);
    WindowValues(0.0, FILT_SIZE, xs);
    assert forall i :: 0 <= i < FILT_SIZE ==> w[i] == 0.0;
    SumConstant(w, 0.0);
  }

  /** If every angle in the last window is the same, the latched offset is that angle. */
  lemma SteadyWindowOffset(motorSign: int, fs: seq<Frame>, k: nat, a: real)
    requires FILT_SIZE <= k < |fs|
    requires forall i :: k + 1 - FILT_SIZE <= i <= k ==> MotorAngle(motorSign, fs[i]) == a
    ensures MotorZeroAt(motorSign, fs, k) == a
  {
    var xs := MotorAngles(motorSign, fs[..k + 1]);
    WindowOfLongHistory(0.0, FILT_SIZE, xs);
    var w := Window(0.0, FILT_SIZE, xs);
    assert forall i :: 0 <= i < FILT_SIZE ==> w[i] == xs[k + 1 - FILT_SIZE + i];
    MeanConstant(w, a);
  }

  /** One more sample extends each history by that sample's value. */
  lemma HistoriesStep(motorSign: int, ankEncSign: int, fs: seq<Frame>, i: nat)
    requires i < |fs|
    ensures Indicators(fs[..i + 1]) == Indicators(fs[..i]) + [Indicator(fs[i])]
    ensures MotorAngles(motorSign, fs[..i + 1]) == MotorAngles(motorSign, fs[..i]) + [MotorAngle(motorSign, fs[i])]
    ensures AnkleAngles(ankEncSign, fs[..i + 1]) == AnkleAngles(ankEncSign, fs[..i]) + [AnkleAngle(ankEncSign, fs[i])]
  {
    var a := MotorAngles(motorSign, fs[..i + 1]);
    var b := MotorAngles(motorSign, fs[..i]) + [MotorAngle(motorSign, fs[i])];
    assert forall j :: 0 <= j < i + 1 ==> a[j] == b[j];
    var c := AnkleAngles(ankEncSign, fs[..i + 1]);
    var e := AnkleAngles(ankEncSign, fs[..i]) + [AnkleAngle(ankEncSign, fs[i])];
    assert forall j :: 0 <= j < i + 1 ==> c[j] == e[j];
    var g := Indicators(fs[..i + 1]);
    var h := Indicators(fs[..i]) + [Indicator(fs[i])];
    assert forall j :: 0 <= j < i + 1 ==> g[j] == h[j];
  }

  /** What one more sample does to the three windows of the zeroing loop. */
  lemma ZeroingWindowsStep(motorSign: int, ankEncSign: int, fs: seq<Frame>, i: nat)
    requires i < |fs|
    ensures Window(0.0, FILT_SIZE, Indicators(fs[..i + 1]))
            == Window(0.0, FILT_SIZE, Indicators(fs[..i]))[1..] + [Indicator(fs[i])]
    ensures Window(0.0, FILT_SIZE, MotorAngles(motorSign, fs[..i + 1]))
            == Window(0.0, FILT_SIZE, MotorAngles(motorSign, fs[..i]))[1..] + [MotorAngle(motorSign, fs[i])]
    ensures Window(0.0, FILT_SIZE, AnkleAngles(ankEncSign, fs[..i + 1]))
            == Window(0.0, FILT_SIZE, AnkleAngles(ankEncSign, fs[..i]))[1..] + [AnkleAngle(ankEncSign, fs[i])]
  {
    HistoriesStep(motorSign, ankEncSign, fs, i);
    WindowStep(0.0, FILT_SIZE, Indicators(fs[..i]), Indicator(fs[i]));
    WindowStep(0.0, FILT_SIZE, MotorAngles(motorSign, fs[..i]), MotorAngle(motorSign, fs[i]));
    WindowStep(0.0, FILT_SIZE, AnkleAngles(ankEncSign, fs[..i]), AnkleAngle(ankEncSign, fs[i]));
  }

  /** The three zeroing filters hold the windows of samples 0..i-1. */
  ghost predicate FiltersAt(ismoving: MovingAverageFilter, motorAngles: MovingAverageFilter,
                            ankleAngles: MovingAverageFilter, motorSign: int, ankEncSign: int,
                            fs: seq<Frame>, i: nat)
    reads ismoving, motorAngles, ankleAngles
    requires i <= |fs|
  {
    && ismoving.Valid() && motorAngles.Valid() && ankleAngles.Valid()
    && ismoving.window == Window(0.0, FILT_SIZE, Indicators(fs[..i]))
    && motorAngles.window == Window(0.0, FILT_SIZE, MotorAngles(motorSign, fs[..i]))
    && ankleAngles.window == Window(0.0, FILT_SIZE, AnkleAngles(ankEncSign, fs[..i]))
  }

  /** One pass of the zeroing loop's filter updates with sample `fs[i]`. */
  method FeedSample(ismoving: MovingAverageFilter, motorAngles: MovingAverageFilter,
                    ankleAngles: MovingAverageFilter, motorSign: int, ankEncSign: int,
                    fs: seq<Frame>, i: nat)
    requires i < |fs|
    requires ismoving != motorAngles && ismoving != ankleAngles && motorAngles != ankleAngles
    requires FiltersAt(ismoving, motorAngles, ankleAngles, motorSign, ankEncSign, fs, i)
    modifies ismoving, motorAngles, ankleAngles
    ensures FiltersAt(ismoving, motorAngles, ankleAngles, motorSign, ankEncSign, fs, i + 1)
  {
    var data := fs[i];
    HistoriesStep(motorSign, ankEncSign, fs, i);
    ghost var w1, w2, w3 := ismoving.window, motorAngles.window, ankleAngles.window;
    ismoving.Update(if IsMoving(data) then 1.0 else 0.0);
    motorAngles.Update(MotorAngle(motorSign, data));
    ankleAngles.Update(AnkleAngle(ankEncSign, data));
    WindowNext(0.0, FILT_SIZE, Indicators(fs[..i]), Indicator(data), w1, ismoving.window);
    WindowNext(0.0, FILT_SIZE, MotorAngles(motorSign, fs[..i]), MotorAngle(motorSign, data), w2, motorAngles.window);
    WindowNext(0.0, FILT_SIZE, AnkleAngles(ankEncSign, fs[..i]), AnkleAngle(ankEncSign, data), w3, ankleAngles.window);
  }

  /** After sample i, the filters' averages are the exit test's average and the two offsets. */
  lemma FiltersAverages(ismoving: MovingAverageFilter, motorAngles: MovingAverageFilter,
                        ankleAngles: MovingAverageFilter, motorSign: int, ankEncSign: int,
                        fs: seq<Frame>, i: nat)
    requires i < |fs| && FiltersAt(ismoving, motorAngles, ankleAngles, motorSign, ankEncSign, fs, i + 1)
    ensures ismoving.Average() == MovingAverageAt(fs, i)
    ensures motorAngles.Average() == MotorZeroAt(motorSign, fs, i)
    ensures ankleAngles.Average() == AnkleZeroAt(ankEncSign, fs, i)
  {
  }

  /** The loop's exit test after sample i: is-moving average above 0.95 and the grace counter done. */
  method ExitTest(ismoving: MovingAverageFilter, motorAngles: MovingAverageFilter,
                  ankleAngles: MovingAverageFilter, isafter: TrueAfter, motorSign: int, ankEncSign: int,
                  fs: seq<Frame>, i: nat)
    returns (stop: bool)
    requires i < |fs| && FiltersAt(ismoving, motorAngles, ankleAngles, motorSign, ankEncSign, fs, i + 1)
    requires isafter.after == FILT_SIZE && isafter.steps == i
    ensures stop == StopsAt(fs, i)
  {
    FiltersAverages(ismoving, motorAngles, ankleAngles, motorSign, ankEncSign, fs, i);
    stop := ismoving.Average() > MOVING_AVERAGE_LIMIT && isafter.IsAfter();
  }

  /** The offsets latched after sample i: the two angle window averages. */
  method LatchedOffsets(ismoving: MovingAverageFilter, motorAngles: MovingAverageFilter,
                        ankleAngles: MovingAverageFilter, motorSign: int, ankEncSign: int,
                        fs: seq<Frame>, i: nat)
    returns (motorZero: real, ankleZero: real)
    requires i < |fs| && FiltersAt(ismoving, motorAngles, ankleAngles, motorSign, ankEncSign, fs, i + 1)
    ensures motorZero == MotorZeroAt(motorSign, fs, i) && ankleZero == AnkleZeroAt(ankEncSign, fs, i)
  {
    FiltersAverages(ismoving, motorAngles, ankleAngles, motorSign, ankEncSign, fs, i);
    motorZero := motorAngles.Average();
    ankleZero := ankleAngles.Average();
  }

  /**
    What the zeroing loop knows before sample i: the filters hold the windows of samples
    0..i-1, the grace counter has counted them, and either no sample has passed the exit
    test yet, or sample i-1 is the first that did and the offsets are its window averages.
  */
  ghost predicate ZeroingInvariant(ismoving: MovingAverageFilter, motorAngles: MovingAverageFilter,
                                   ankleAngles: MovingAverageFilter, isafter: TrueAfter,
                                   motorSign: int, ankEncSign: int, fs: seq<Frame>, i: nat,
                                   holding: bool, motorZero: real, ankleZero: real)
    reads ismoving, motorAngles, ankleAngles, isafter
  {
    && i <= |fs|
    && FiltersAt(ismoving, motorAngles, ankleAngles, motorSign, ankEncSign, fs, i)
    && isafter.after == FILT_SIZE && isafter.steps == i
    && (holding ==> NoStopBefore(fs, i))
    && (!holding ==> && 0 < i && NoStopBefore(fs, i - 1) && StopsAt(fs, i - 1)
                     && motorZero == MotorZeroAt(motorSign, fs, i - 1)
                     && ankleZero == AnkleZeroAt(ankEncSign, fs, i - 1))
  }

  /** One pass of the zeroing loop, on sample i while still holding. */
  method ZeroingIteration(ismoving: MovingAverageFilter, motorAngles: MovingAverageFilter,
                          ankleAngles: MovingAverageFilter, isafter: TrueAfter,
                          motorSign: int, ankEncSign: int, fs: seq<Frame>, i: nat,
                          motorZero0: real, ankleZero0: real)
    returns (holding: bool, motorZero: real, ankleZero: real)
    requires i < |fs|
    requires ismoving != motorAngles && ismoving != ankleAngles && motorAngles != ankleAngles
    requires ZeroingInvariant(ismoving, motorAngles, ankleAngles, isafter, motorSign, ankEncSign, fs, i,
                              true, motorZero0, ankleZero0)
    modifies ismoving, motorAngles, ankleAngles, isafter
    ensures ZeroingInvariant(ismoving, motorAngles, ankleAngles, isafter, motorSign, ankEncSign, fs, i + 1,
                             holding, motorZero, ankleZero)
  {
    FeedSample(ismoving, motorAngles, ankleAngles, motorSign, ankEncSign, fs, i);
    var stop := ExitTest(ismoving, motorAngles, ankleAngles, isafter, motorSign, ankEncSign, fs, i);
    holding, motorZero, ankleZero := true, motorZero0, ankleZero0;
    if stop {
      motorZero, ankleZero := LatchedOffsets(ismoving, motorAngles, ankleAngles, motorSign, ankEncSign, fs, i);
      holding := false;
    } else {
      NoStopExtends(fs, i);
    }
    isafter.Step();
  }

  /**
    The loop of `zeroProcedure`: feed each sample's is-moving indicator and angles into
    three windows of 2500 started at 0, and stop on the first sample whose indicator
    average exceeds 0.95 once the grace counter (stepped after each sample) has reached
    2500; then report the two angle window averages.
  */
  method RunZeroingFilters(motorSign: int, ankEncSign: int, samples: seq<Frame>)
    returns (stopped: bool, k: nat, motorZero: real, ankleZero: real)
    ensures FirstStop(samples, 0) == (if stopped then Some(k) else None)
    ensures stopped ==> k < |samples| && motorZero == MotorZeroAt(motorSign, samples, k)
                        && ankleZero == AnkleZeroAt(ankEncSign, samples, k)
  {
    var holdingCurrent := true;
    var isafter := new TrueAfter(FILT_SIZE);
    var ismoving := new MovingAverageFilter(0.0, FILT_SIZE);
    var motorAnglesHistory := new MovingAverageFilter(0.0, FILT_SIZE);
    var ankleAnglesHistory := new MovingAverageFilter(0.0, FILT_SIZE);
    motorZero, ankleZero := 0.0, 0.0;
    assert samples[..0] == [];
    assert Indicators([]) == [] && MotorAngles(motorSign, []) == [] && AnkleAngles(ankEncSign, []) == [];
    assert Window(0.0, FILT_SIZE, []) == Repeat(0.0, FILT_SIZE);

    var i := 0;
    while holdingCurrent && i < |samples|
      invariant ZeroingInvariant(ismoving, motorAnglesHistory, ankleAnglesHistory, isafter, motorSign, ankEncSign,
                                 samples, i, holdingCurrent, motorZero, ankleZero)
      modifies ismoving, motorAnglesHistory, ankleAnglesHistory, isafter
      decreases |samples| - i, holdingCurrent
    {
      holdingCurrent, motorZero, ankleZero :=
        ZeroingIteration(ismoving, motorAnglesHistory, ankleAnglesHistory, isafter, motorSign, ankEncSign,
                         samples, i, motorZero, ankleZero);
      i := i + 1;
    }

    stopped := !holdingCurrent;
    k := if stopped then i - 1 else 0;
    if stopped {
      FirstStopIs(samples, k);
    }
  }

  // ------------------------------------------------------------------- logging sink

  /** The logging nexus, reduced to the records appended to it, in order. */
  class LoggingNexus {
    var entries: seq<(string, map<string, Value>)>

    constructor ()
      ensures entries == []
    {
      entries := [];
    }

    method Append(name: string, amap: map<string, Value>)
      modifies this
      ensures entries == old(entries) + [(name, amap)]
    {
      entries := entries + [(name, amap)];
    }
  }

  // ------------------------------------------------------------ the actuator thread

  /** Keys `read_sensors` writes. */
  const SENSOR_KEYS: set<string> :=
    {"state_time", "temperature", "accel_x", "accel_y", "accel_z", "gyro_x", "gyro_y", "gyro_z",
     "ankle_angle", "ankle_velocity", "motor_angle", "motor_velocity", "motor_current", "motor_voltage",
     "battery_voltage", "battery_current", "N", "act_ank_torque"}

  /** Keys `log_state_estimate` writes. */
  const ESTIMATE_KEYS: set<string> := {"HS", "current_time", "stride_period", "peak_torque", "in_swing"}

  /** `m2` agrees with `m1` on every key outside `written`, and has the same keys. */
  ghost predicate SameExcept(m1: map<string, Value>, m2: map<string, Value>, written: set<string>) {
    m2.Keys == m1.Keys && forall k :: k in m1 && k !in written ==> m2[k] == m1[k]
  }

  /** What `read_sensors` writes, key by key, for one read and the looked-up ratio. */
  function SensorValues(motorSign: int, ankEncSign: int, data: Frame, ratio: real): map<string, Value> {
    var motorCurrent := data.motCur as real;
    map["state_time" := Num(data.stateTime as real / 1000.0),
        "temperature" := Num(data.temperature as real),
        "accel_x" := Num(data.accelx as real * ACCEL_GAIN),
        "accel_y" := Num(-1.0 * data.accely as real * ACCEL_GAIN),
        "accel_z" := Num(data.accelz as real * ACCEL_GAIN),
        "gyro_x" := Num(-1.0 * data.gyrox as real * GYRO_GAIN),
        "gyro_y" := Num(data.gyroy as real * GYRO_GAIN),
        "gyro_z" := Num(data.gyroz as real * GYRO_GAIN),
        "ankle_angle" := Num(AnkleAngle(ankEncSign, data)),
        "ankle_velocity" := Num(data.ankVel as real / 10.0),
        "motor_angle" := Num(MotorAngle(motorSign, data)),
        "motor_velocity" := Num(data.motVel as real),
        "motor_current" := Num(motorCurrent),
        "motor_voltage" := Num(data.motVolt as real),
        "battery_voltage" := Num(data.battVolt as real),
        "battery_current" := Num(data.battCurr as real),
        "N" := Num(ratio),
        "act_ank_torque" := Num(ratio * EFFICIENCY * (motorCurrent * Kt / 1000.0 * motorSign as real))]
  }

  /** What `log_state_estimate` writes. */
  function EstimateValues(hs: real, currentTime: real, stridePeriod: real, peakTorque: real, inSwing: bool)
    : map<string, Value>
  {
    map["HS" := Num(hs), "current_time" := Num(currentTime), "stride_period" := Num(stridePeriod),
        "peak_torque" := Num(peakTorque), "in_swing" := Flag(inSwing)]
  }

  lemma EstimateValuesMerge(m: map<string, Value>, m': map<string, Value>,
                            hs: real, currentTime: real, stridePeriod: real, peakTorque: real, inSwing: bool)
    requires m' == m["HS" := Num(hs)]["current_time" := Num(currentTime)]["stride_period" := Num(stridePeriod)]
                    ["peak_torque" := Num(peakTorque)]["in_swing" := Flag(inSwing)]
    ensures m' == m + EstimateValues(hs, currentTime, stridePeriod, peakTorque, inSwing)
  {
  }

  lemma SensorKeysInFields()
    ensures forall k :: k in SENSOR_KEYS ==> k in EXOTHREAD_FIELDS
  {
    forall k | k in SENSOR_KEYS ensures k in EXOTHREAD_FIELDS {
      assert k in SENSOR_FIELDS || k == GAIT_ESTIMATE_FIELDS[5];
    }
  }

  lemma EstimateKeysInFields()
    ensures forall k :: k in ESTIMATE_KEYS ==> k in EXOTHREAD_FIELDS
  {
    var e := EXOTHREAD_FIELDS;
    assert e[2] == "HS" && e[3] == "current_time" && e[4] == "stride_period" && e[5] == "peak_torque" && e[6] == "in_swing";
  }

  /** The keys the thread writes outside `read_sensors` and `log_state_estimate`. */
  const OTHER_WRITTEN_KEYS: set<string> := {"pitime", "thread_freq", "winding_temp", "torque_command", "current_command"}

  lemma OtherKeysInFields()
    ensures forall k :: k in OTHER_WRITTEN_KEYS ==> k in EXOTHREAD_FIELDS
  {
    var e := EXOTHREAD_FIELDS;
    assert e[0] == "pitime" && e[1] == "thread_freq" && e[12] == "winding_temp" && e[8] == "torque_command" && e[9] == "current_command";
  }

  lemma SensorKeysInSchema()
    ensures SENSOR_KEYS <= FieldKeys()
  {
    var f := FieldKeys();
    SensorKeysInFields();
    forall k | k in SENSOR_KEYS ensures k in f { }
  }

  lemma EstimateKeysInSchema()
    ensures ESTIMATE_KEYS <= FieldKeys()
  {
    var f := FieldKeys();
    EstimateKeysInFields();
    forall k | k in ESTIMATE_KEYS ensures k in f { }
  }

  /**
    Every key the thread writes belongs to the record schema, so writing never adds a key:
    the record keeps exactly the 29 keys it was created with.
  */
  lemma WrittenKeysInSchema()
    ensures SENSOR_KEYS <= FieldKeys() && ESTIMATE_KEYS <= FieldKeys() && OTHER_WRITTEN_KEYS <= FieldKeys()
  {
    var f := FieldKeys();
    SensorKeysInSchema();
    EstimateKeysInSchema();
    OtherKeysInFields();
    forall k | k in OTHER_WRITTEN_KEYS ensures k in f { }
  }

  lemma SensorValuesKeys(motorSign: int, ankEncSign: int, data: Frame, ratio: real)
    ensures SensorValues(motorSign, ankEncSign, data, ratio).Keys == SENSOR_KEYS
  {
  }

  lemma EstimateValuesKeys(hs: real, currentTime: real, stridePeriod: real, peakTorque: real, inSwing: bool)
    ensures EstimateValues(hs, currentTime, stridePeriod, peakTorque, inSwing).Keys == ESTIMATE_KEYS
  {
  }

  /** The torque profile: (time since heel strike, stride period, peak torque, in swing) -> N·m. */
  type Profile = (real, real, real, bool) -> real

  class ExobootThread {
    const side: string
    const deviceId: int
    const name: string
    const startstamp: real
    const motorSign: int
    const ankEncSign: int
    const pauseEvent: Event
    const quitEvent: Event

    var motorAngleZero: real
    var ankleAngleZero: real
    var exoSafetyShutoffFlag: bool
    var peakTorque: real
    var hs: real
    var currentTime: real
    var stridePeriod: real
    var inSwing: bool
    var dataDict: map<string, Value>
    var loggingNexus: LoggingNexus?
    /** Every `command_motor_current` sent to the device, oldest first. */
    var commands: seq<int>

    /** The record always has exactly the schema's keys. */
    ghost predicate Valid()
      reads this
    {
      dataDict.Keys == FieldKeys()
    }

    /**
      `__init__`: the signs come from the identity tables (the source raises KeyError for an
      unknown identifier, so the identifier must be known); HS starts at the time `now`.
    */
    constructor (side: string, deviceId: int, startstamp: real, name: string,
                 pauseEvent: Event, quitEvent: Event, now: real)
      requires KnownId(deviceId)
      ensures Valid()
      ensures this.side == side && this.deviceId == deviceId && this.name == name && this.startstamp == startstamp
      ensures this.pauseEvent == pauseEvent && this.quitEvent == quitEvent
      ensures motorSign == DEV_ID_TO_MOTOR_SIGN_DICT[deviceId] && ankEncSign == DEV_ID_TO_ANK_ENC_SIGN_DICT[deviceId]
      ensures motorAngleZero == 0.0 && ankleAngleZero == 0.0
      ensures !exoSafetyShutoffFlag
      ensures peakTorque == 0.0 && hs == now && currentTime == 0.0 && stridePeriod == 1.0 && !inSwing
      ensures forall k :: k in dataDict ==> dataDict[k] == Missing
      ensures loggingNexus == null && commands == []
    {
      IdTablesTotalOnKnownIds();
      this.side := side;
      this.deviceId := deviceId;
      this.name := name;
      this.startstamp := startstamp;
      this.pauseEvent := pauseEvent;
      this.quitEvent := quitEvent;
      motorSign := DEV_ID_TO_MOTOR_SIGN_DICT[deviceId];
      ankEncSign := DEV_ID_TO_ANK_ENC_SIGN_DICT[deviceId];
      motorAngleZero := 0.0;
      ankleAngleZero := 0.0;
      exoSafetyShutoffFlag := false;
      peakTorque := 0.0;
      hs := now;
      currentTime := 0.0;
      stridePeriod := 1.0;
      inSwing := false;
      dataDict := map f | f in FieldKeys() :: Missing;
      loggingNexus := null;
      commands := [];
    }

    /** `getval`: a record lookup (KeyError for a key outside the schema). */
    function GetVal(what: string): Value
      reads this
      requires what in dataDict
    {
      dataDict[what]
    }

    /** `spool_belt`: take up the slack with the bias current. */
    method SpoolBelt()
      modifies this`commands
      ensures commands == old(commands) + [motorSign * BIAS_CURRENT]
    {
      commands := commands + [motorSign * BIAS_CURRENT];
    }

    /** `on_pre_pause`: entering pause holds the bias current. */
    method OnPrePause()
      modifies this`commands
      ensures commands == old(commands) + [motorSign * BIAS_CURRENT]
    {
      commands := commands + [motorSign * BIAS_CURRENT];
    }

    /**
      `zeroProcedure` over the reads `samples`: hold 1000 mA (signed), run the filters
      until the exit test passes, and then latch the angle averages as offsets and command
      0 mA twice. If the samples run out first, the loop is still holding: nothing is
      latched and only the hold current has been sent.
    */
    method ZeroProcedure(samples: seq<Frame>) returns (stopped: bool, k: nat)
      modifies this`motorAngleZero, this`ankleAngleZero, this`commands
      ensures FirstStop(samples, 0) == (if stopped then Some(k) else None)
      ensures stopped ==> (motorAngleZero == MotorZeroAt(motorSign, samples, k)
                           && ankleAngleZero == AnkleZeroAt(ankEncSign, samples, k)
                           && commands == old(commands) + [PULL_CURRENT * motorSign, 0, 0])
      ensures !stopped ==> (motorAngleZero == old(motorAngleZero) && ankleAngleZero == old(ankleAngleZero)
                            && commands == old(commands) + [PULL_CURRENT * motorSign])
    {
      commands := commands + [PULL_CURRENT * motorSign];
      var motorZero, ankleZero;
      stopped, k, motorZero, ankleZero := RunZeroingFilters(motorSign, ankEncSign, samples);
      if stopped {
        motorAngleZero, ankleAngleZero := motorZero, ankleZero;
        commands := commands + [0];   // stop the hold current
        commands := commands + [0];   // and send 0 current once more after saving the offsets
      }
    }

    /** `set_state_estimate`: overwrite the four gait-estimate fields and nothing else. */
    method SetStateEstimate(newHs: real, newStridePeriod: real, newPeakTorque: real, newInSwing: bool)
      modifies this`hs, this`stridePeriod, this`peakTorque, this`inSwing
      ensures hs == newHs && stridePeriod == newStridePeriod && peakTorque == newPeakTorque && inSwing == newInSwing
    {
      hs := newHs;
      stridePeriod := newStridePeriod;
      peakTorque := newPeakTorque;
      inSwing := newInSwing;
    }

    /** `log_state_estimate`: copy the estimate and the phase time into their five record keys. */
    method LogStateEstimate()
      requires Valid()
      modifies this`dataDict
      ensures Valid()
      ensures dataDict == old(dataDict) + EstimateValues(hs, currentTime, stridePeriod, peakTorque, inSwing)
    {
      EstimateKeysInSchema();
      dataDict := dataDict["HS" := Num(hs)];
      dataDict := dataDict["current_time" := Num(currentTime)];
      dataDict := dataDict["stride_period" := Num(stridePeriod)];
      dataDict := dataDict["peak_torque" := Num(peakTorque)];
      dataDict := dataDict["in_swing" := Flag(inSwing)];
      EstimateValuesMerge(old(dataDict), dataDict, hs, currentTime, stridePeriod, peakTorque, inSwing);
    }

    /**
      `read_sensors` for one read `data`; `ratio` is the transmission ratio looked up at the
      (signed, not zero-corrected) ankle angle. The record keeps its keys and changes only
      on the keys `read_sensors` writes.
    */
    method ReadSensors(data: Frame, ratio: real)
      requires Valid()
      modifies this`dataDict
      ensures Valid()
      ensures dataDict == old(dataDict) + SensorValues(motorSign, ankEncSign, data, ratio)
    {
      SensorKeysInSchema();
      SensorValuesKeys(motorSign, ankEncSign, data, ratio);
      dataDict := dataDict + SensorValues(motorSign, ankEncSign, data, ratio);
    }

    /** `pre_iterate`: time stamp, sensor read, then the estimate copied into the record. */
    method PreIterate(now: real, data: Frame, ratio: real)
      requires Valid()
      modifies this`dataDict
      ensures Valid()
      ensures dataDict == old(dataDict)["pitime" := Num(now - startstamp)]
                          + SensorValues(motorSign, ankEncSign, data, ratio)
                          + EstimateValues(hs, currentTime, stridePeriod, peakTorque, inSwing)
    {
      SensorKeysInSchema();
      EstimateKeysInSchema();
      OtherKeysInFields();
      SensorValuesKeys(motorSign, ankEncSign, data, ratio);
      EstimateValuesKeys(hs, currentTime, stridePeriod, peakTorque, inSwing);
      dataDict := dataDict["pitime" := Num(now - startstamp)];
      ReadSensors(data, ratio);
      LogStateEstimate();
    }

    /**
      `iterate`: phase time from the heel strike, torque from the profile, current from the
      torque and the recorded ratio, clamp, then either the shut-off branch (0 mA and quit
      cleared) or the signed vetted current.
    */
    method Iterate(now: real, profile: Profile)
      requires Valid()
      requires "N" in dataDict && dataDict["N"].Num? && dataDict["N"].x != 0.0
      modifies this`currentTime, this`dataDict, this`commands, quitEvent
      ensures Valid()
      ensures currentTime == now - hs
      ensures var torque := profile(currentTime, stridePeriod, peakTorque, inSwing);
              var current := TorqueToCurrent(torque, old(dataDict)["N"].x);
              && dataDict == old(dataDict)["torque_command" := Num(torque)]["current_command" := Num(current as real)]
              && (exoSafetyShutoffFlag ==> commands == old(commands) + [0] && !quitEvent.flag)
              && (!exoSafetyShutoffFlag ==> (commands == old(commands) + [motorSign * Vet(current)]
                                             && quitEvent.flag == old(quitEvent.flag)))
    {
      currentTime := now - hs;

      var torqueCommand := profile(currentTime, stridePeriod, peakTorque, inSwing);
      dataDict := dataDict["torque_command" := Num(torqueCommand)];

      var currentCommand := TorqueToCurrent(torqueCommand, GetVal("N").x);
      dataDict := dataDict["current_command" := Num(currentCommand as real)];

      var vettedCurrent := Vet(currentCommand);

      if exoSafetyShutoffFlag {
        commands := commands + [0];
        quitEvent.Clear();
      } else {
        commands := commands + [motorSign * vettedCurrent];
      }
    }

    /**
      `post_iterate`: record the measured loop frequency and the modelled winding
      temperature; the thermal check only warns, so the shut-off flag is left as it was; the
      record is appended to the nexus only when one is attached and the pause event is set.
    */
    method PostIterate(freq: real, windingTemp: real)
      requires Valid()
      modifies this`dataDict, loggingNexus
      ensures Valid()
      ensures dataDict == old(dataDict)["thread_freq" := Num(freq)]["winding_temp" := Num(windingTemp)]
      ensures exoSafetyShutoffFlag == old(exoSafetyShutoffFlag)
      ensures loggingNexus != null && pauseEvent.flag ==>
                loggingNexus.entries == old(loggingNexus.entries) + [(name, dataDict)]
      ensures loggingNexus != null && !pauseEvent.flag ==> loggingNexus.entries == old(loggingNexus.entries)
    {
      dataDict := dataDict["thread_freq" := Num(freq)];
      ThermalSafetyChecker(windingTemp);
      if loggingNexus != null && pauseEvent.IsSet() {
        loggingNexus.Append(name, dataDict);
      }
    }

    /**
      `thermal_safety_checker`: store the thermal model's winding temperature. The limit
      comparisons only print, because the assignments to the shut-off flag are commented out.
    */
    method ThermalSafetyChecker(windingTemp: real)
      requires Valid()
      modifies this`dataDict
      ensures Valid()
      ensures dataDict == old(dataDict)["winding_temp" := Num(windingTemp)]
      ensures exoSafetyShutoffFlag == old(exoSafetyShutoffFlag)
    {
      dataDict := dataDict["winding_temp" := Num(windingTemp)];
    }
  }

  /** Binding a device: the identity-table lookup fails (KeyError) exactly for an unknown identifier. */
  method NewExobootThread(side: string, deviceId: int, startstamp: real, name: string,
                          pauseEvent: Event, quitEvent: Event, now: real)
    returns (t: ExobootThread?)
    ensures t == null <==> !KnownId(deviceId)
    ensures t != null ==> fresh(t) && t.Valid() && t.motorSign == -1
    ensures t != null ==> t.ankEncSign == (if deviceId in RIGHT_EXO_DEV_IDS then -1 else 1)
  {
    if KnownId(deviceId) {
      SignsOfKnownIds();
      IdTablesTotalOnKnownIds();
      t := new ExobootThread(side, deviceId, startstamp, name, pauseEvent, quitEvent, now);
    } else {
      t := null;
    }
  }
}
