/**
  The transmission-ratio characterisation tool: it finds up to two devices and puts them
  in left/right order, and for each device records a curve of motor angle against ankle
  angle while the ankle is moved by hand, then stores a cubic fit of that curve and its
  derivative (the transmission ratio) with the ankle offset.

  Samples come in as a sequence of steps: a packet read from the device, a read that
  fails, a packet missing a field, or the operator's stop request arriving between two
  iterations. Angles are encoder clicks times `ENC_CLICKS_TO_DEG`, in exact arithmetic.
  The least-squares fit itself is a parameter: the four coefficients it returns.
*/
module TrCharacterization {
  import opened Common
  import opened Constants

  // ---------------------------------------------------------------- device ordering

  /** A side and a device identifier, or nothing when that port gave no usable device. */
  type Slot = Option<(string, int)>

  /**
    One port: a device that cannot be opened, or whose identifier the side table does not
    know, gives an empty slot (the bare `except` catches both) and does not stop the tool.
  */
  function Probe(d: Option<int>): (r: Slot)
    ensures r.Some? <==> d.Some? && KnownId(d.value)
    ensures r.Some? ==> r.value.1 == d.value && r.value.0 == DEV_ID_TO_SIDE_DICT[d.value]
                        && r.value.0 in {"left", "right"}
  {
    IdTablesTotalOnKnownIds();
    SideOfKnownIds();
    if d.Some? && KnownId(d.value) then Some((DEV_ID_TO_SIDE_DICT[d.value], d.value)) else None
  }

  function SideOf(s: Slot): Option<string> {
    if s.Some? then Some(s.value.0) else None
  }

  /** `(side_left, device_left, side_right, device_right)` as two slots. */
  datatype TrPorts = TrPorts(left: Slot, right: Slot)

  datatype TrPortError =
    | NoDevices     // neither port gave a device: the tool quits
    | InvalidSides  // neither ordering test held

  /**
    `get_active_ports` of the tool: keep the order when the first side is left or the
    second is right; otherwise swap it when the first is right or the second is left;
    otherwise raise. With no device at all it quits before ordering.
  */
  function GetActivePorts(d1: Option<int>, d2: Option<int>): (r: Result<TrPorts, TrPortError>)
    ensures r.Err? ==> r.error == NoDevices
    ensures r.Err? <==> Probe(d1).None? && Probe(d2).None?
    ensures r.Ok? ==> SideOf(r.value.left) == Some("left") || SideOf(r.value.right) == Some("right")
    ensures r.Ok? ==> multiset{r.value.left, r.value.right} == multiset{Probe(d1), Probe(d2)}
  {
    var p1, p2 := Probe(d1), Probe(d2);
    if p1.None? && p2.None? then Err(NoDevices)
    else if SideOf(p1) == Some("left") || SideOf(p2) == Some("right") then Ok(TrPorts(p1, p2))
    else if SideOf(p1) == Some("right") || SideOf(p2) == Some("left") then Ok(TrPorts(p2, p1))
    else Err(InvalidSides)
  }

  /** The ordering test is total on sides from the table: a known device never reaches the raise. */
  lemma InvalidSidesUnreachable(s1: Slot, s2: Slot)
    requires s1.Some? || s2.Some?
    requires s1.Some? ==> s1.value.0 in {"left", "right"}
    requires s2.Some? ==> s2.value.0 in {"left", "right"}
    ensures SideOf(s1) == Some("left") || SideOf(s2) == Some("right")
            || SideOf(s1) == Some("right") || SideOf(s2) == Some("left")
  {
  }

  /** A single device lands in the slot of its own side, whichever port it is on. */
  lemma SingleDeviceInItsSlot(id: int, onFirstPort: bool)
    requires KnownId(id)
    ensures var r := if onFirstPort then GetActivePorts(Some(id), None) else GetActivePorts(None, Some(id));
            && r.Ok?
            && (id in LEFT_EXO_DEV_IDS ==> r.value == TrPorts(Some(("left", id)), None))
            && (id in RIGHT_EXO_DEV_IDS ==> r.value == TrPorts(None, Some(("right", id))))
  {
    SideOfKnownIds();
  }

  /** One left and one right device come back left first, as in the controllers' rule. */
  lemma OneOfEachSideLeftFirst(id1: int, id2: int)
    requires (id1 in LEFT_EXO_DEV_IDS && id2 in RIGHT_EXO_DEV_IDS) || (id1 in RIGHT_EXO_DEV_IDS && id2 in LEFT_EXO_DEV_IDS)
    ensures var r := GetActivePorts(Some(id1), Some(id2));
            && r.Ok? && SideOf(r.value.left) == Some("left") && SideOf(r.value.right) == Some("right")
            && r.value.left.value.1 in LEFT_EXO_DEV_IDS && r.value.right.value.1 in RIGHT_EXO_DEV_IDS
  {
    SideOfKnownIds();
  }

  /** Two right devices are kept in port order, so a right device sits in the left slot. */
  lemma TwoRightDevicesKept(id1: int, id2: int)
    requires id1 in RIGHT_EXO_DEV_IDS && id2 in RIGHT_EXO_DEV_IDS
    ensures GetActivePorts(Some(id1), Some(id2)) == Ok(TrPorts(Some(("right", id1)), Some(("right", id2))))
  {
    SideOfKnownIds();
  }

  /** Two left devices are kept in port order too, so a left device sits in the right slot. */
  lemma TwoLeftDevicesKept(id1: int, id2: int)
    requires id1 in LEFT_EXO_DEV_IDS && id2 in LEFT_EXO_DEV_IDS
    ensures GetActivePorts(Some(id1), Some(id2)) == Ok(TrPorts(Some(("left", id1)), Some(("left", id2))))
  {
    SideOfKnownIds();
  }

  /** The devices the entry point characterises, in order: each non-empty slot, left slot first. */
  function CharacterizationOrder(p: TrPorts): (r: seq<(string, int)>)
    ensures forall x :: x in r <==> p.left == Some(x) || p.right == Some(x)
    ensures |r| == (if p.left.Some? then 1 else 0) + (if p.right.Some? then 1 else 0)
    ensures p.left.Some? ==> r[0] == p.left.value
  {
    (if p.left.Some? then [p.left.value] else []) + (if p.right.Some? then [p.right.value] else [])
  }

  /** Once the ports are ordered, at least one device is characterised, and only known ones. */
  lemma SomethingToCharacterize(d1: Option<int>, d2: Option<int>)
    requires GetActivePorts(d1, d2).Ok?
    ensures var order := CharacterizationOrder(GetActivePorts(d1, d2).value);
            |order| >= 1 && forall j :: 0 <= j < |order| ==> KnownId(order[j].1)
  {
    var p := GetActivePorts(d1, d2).value;
    var order := CharacterizationOrder(p);
    forall j | 0 <= j < |order| ensures KnownId(order[j].1) {
      assert order[j] in order;
      assert p.left == Some(order[j]) || p.right == Some(order[j]);
      assert Some(order[j]) in multiset{Probe(d1), Probe(d2)};
    }
  }

  // ---------------------------------------------------------------- polynomial coefficients

  /** A polynomial with coefficients highest power first, at `x` (Horner's rule). */
  function Eval(c: seq<real>, x: real): real
    decreases |c|
  {
    if |c| == 0 then 0.0 else Eval(c[..|c| - 1], x) * x + c[|c| - 1]
  }

  /** `np.polyder`: coefficients of the derivative, highest power first. */
  function PolyDer(c: seq<real>): (r: seq<real>)
    requires |c| > 0
    ensures |r| == |c| - 1
  {
    seq(|c| - 1, i requires 0 <= i < |c| - 1 => c[i] * (|c| - 1 - i) as real)
  }

  /** The cubic `[a, b, c, d]` has derivative `[3a, 2b, c]`. */
  lemma CubicDerivative(a: real, b: real, c: real, d: real)
    ensures PolyDer([a, b, c, d]) == [3.0 * a, 2.0 * b, c]
  {
    var r := PolyDer([a, b, c, d]);
    assert r[0] == a * 3.0 && r[1] == b * 2.0 && r[2] == c * 1.0;
  }

  /** Horner's rule on three and four coefficients, written out. */
  lemma QuadraticEval(a: real, b: real, c: real, x: real)
    ensures Eval([a, b, c], x) == (a * x + b) * x + c
  {
    assert [a, b, c][..2] == [a, b] && [a, b][..1] == [a] && [a][..0] == [];
    assert Eval([a], x) == a;
    assert Eval([a, b], x) == a * x + b;
  }

  lemma CubicEval(a: real, b: real, c: real, d: real, x: real)
    ensures Eval([a, b, c, d], x) == ((a * x + b) * x + c) * x + d
  {
    assert [a, b, c, d][..3] == [a, b, c];
    QuadraticEval(a, b, c, x);
  }

  /**
    The derivative coefficients are the slope of the cubic: the change of a cubic over a
    step `h` is `h` times its derivative plus terms in `h * h`.
  */
  lemma PolyDerIsSlope(a: real, b: real, c: real, d: real, x: real, h: real)
    ensures Eval([a, b, c, d], x + h) - Eval([a, b, c, d], x)
            == h * Eval(PolyDer([a, b, c, d]), x) + h * h * (3.0 * a * x + b + a * h)
  {
    CubicEval(a, b, c, d, x + h);
    CubicEval(a, b, c, d, x);
    CubicDerivative(a, b, c, d);
    QuadraticEval(3.0 * a, 2.0 * b, c, x);
    assert ((a * (x + h) + b) * (x + h) + c) * (x + h) + d - (((a * x + b) * x + c) * x + d)
        == h * ((3.0 * a * x + 2.0 * b) * x + c) + h * h * (3.0 * a * x + b + a * h);
  }

  // ---------------------------------------------------------------- sample collection

  /** One step of the collection loop. */
  datatype TrStep =
    | StopRequest                     // the operator's `stop()` sets `kill`
    | ReadFails                       // `read` raised before `iterations` was counted
    | Malformed                       // the packet lacks a field: counted, not recorded
    | Sample(ankAng: int, motAng: int)

  /** A signed encoder reading in degrees. */
  function SignedAngle(sign: int, clicks: int): real {
    sign as real * clicks as real * ENC_CLICKS_TO_DEG
  }

  /** The loop's state: the iteration count, the two angle vectors and the kill flag. */
  datatype Collection = Collection(iterations: nat, motor: seq<real>, ankle: seq<real>, killed: bool)

  /**
    One pass: a packet read in full is counted and appends one motor and one ankle angle,
    the ankle angle relative to the offset; without an offset the ankle angle raises, so
    the pass is counted and records nothing.
  */
  function CollectStep(motorSign: int, ankEncSign: int, offset: Option<real>, c: Collection, step: TrStep): Collection {
    match step
    case StopRequest => c.(killed := true)
    case ReadFails => c
    case Malformed => c.(iterations := c.iterations + 1)
    case Sample(ank, mot) =>
      if offset.None? then c.(iterations := c.iterations + 1)
      else Collection(c.iterations + 1, c.motor + [SignedAngle(motorSign, mot)],
                      c.ankle + [SignedAngle(ankEncSign, ank) - offset.value], c.killed)
  }

  /** `while not self.kill`: passes until the kill flag is seen or the steps run out. */
  function CollectLoop(motorSign: int, ankEncSign: int, offset: Option<real>, c: Collection, steps: seq<TrStep>): Collection
    decreases |steps|
  {
    if c.killed || |steps| == 0 then c
    else CollectLoop(motorSign, ankEncSign, offset, CollectStep(motorSign, ankEncSign, offset, c, steps[0]), steps[1..])
  }

  /** The packets read in full before the first stop request. */
  function SamplesBeforeStop(steps: seq<TrStep>): seq<(int, int)>
    decreases |steps|
  {
    if |steps| == 0 then []
    else
      match steps[0]
      case StopRequest => []
      case Sample(ank, mot) => [(ank, mot)] + SamplesBeforeStop(steps[1..])
      case _ => SamplesBeforeStop(steps[1..])
  }

  /** The passes before the first stop request that got a packet. */
  function AttemptsBeforeStop(steps: seq<TrStep>): nat
    decreases |steps|
  {
    if |steps| == 0 then 0
    else
      match steps[0]
      case StopRequest => 0
      case ReadFails => AttemptsBeforeStop(steps[1..])
      case _ => 1 + AttemptsBeforeStop(steps[1..])
  }

  function MotorAnglesOf(motorSign: int, samples: seq<(int, int)>): (r: seq<real>)
    ensures |r| == |samples|
  {
    seq(|samples|, j requires 0 <= j < |samples| => SignedAngle(motorSign, samples[j].1))
  }

  function AnkleAnglesOf(ankEncSign: int, offset: real, samples: seq<(int, int)>): (r: seq<real>)
    ensures |r| == |samples|
  {
    seq(|samples|, j requires 0 <= j < |samples| => SignedAngle(ankEncSign, samples[j].0) - offset)
  }

  /**
    With an offset, the loop records exactly the packets read in full before the stop, in
    order: the motor vector gets their signed motor angles and the ankle vector their
    signed ankle angles minus the offset; `iterations` counts every pass that got a packet.
  */
  lemma {:induction false} RecordedAngles(motorSign: int, ankEncSign: int, offset: real, c: Collection, steps: seq<TrStep>)
    requires !c.killed
    ensures var r := CollectLoop(motorSign, ankEncSign, Some(offset), c, steps);
            && r.motor == c.motor + MotorAnglesOf(motorSign, SamplesBeforeStop(steps))
            && r.ankle == c.ankle + AnkleAnglesOf(ankEncSign, offset, SamplesBeforeStop(steps))
            && r.iterations == c.iterations + AttemptsBeforeStop(steps)
    decreases |steps|
  {
    if |steps| > 0 {
      var rest := steps[1..];
      var next := CollectStep(motorSign, ankEncSign, Some(offset), c, steps[0]);
      match steps[0]
      case StopRequest =>
        assert c.motor + [] == c.motor && c.ankle + [] == c.ankle;
      case ReadFails =>
        RecordedAngles(motorSign, ankEncSign, offset, next, rest);
      case Malformed =>
        RecordedAngles(motorSign, ankEncSign, offset, next, rest);
      case Sample(ank, mot) =>
        RecordedAngles(motorSign, ankEncSign, offset, next, rest);
        var s := SamplesBeforeStop(rest);
        assert MotorAnglesOf(motorSign, [(ank, mot)] + s) == [SignedAngle(motorSign, mot)] + MotorAnglesOf(motorSign, s);
        assert AnkleAnglesOf(ankEncSign, offset, [(ank, mot)] + s)
            == [SignedAngle(ankEncSign, ank) - offset] + AnkleAnglesOf(ankEncSign, offset, s);
    }
  }

  /** The two vectors grow together, never beyond the count of passes. */
  lemma {:induction false} VectorsInStep(motorSign: int, ankEncSign: int, offset: Option<real>, c: Collection, steps: seq<TrStep>)
    requires |c.motor| == |c.ankle| <= c.iterations
    ensures var r := CollectLoop(motorSign, ankEncSign, offset, c, steps);
            |r.motor| == |r.ankle| <= r.iterations && r.iterations >= c.iterations
    decreases |steps|
  {
    if !c.killed && |steps| > 0 {
      VectorsInStep(motorSign, ankEncSign, offset, CollectStep(motorSign, ankEncSign, offset, c, steps[0]), steps[1..]);
    }
  }

  /** Without an offset nothing is ever recorded. */
  lemma {:induction false} NoOffsetRecordsNothing(motorSign: int, ankEncSign: int, c: Collection, steps: seq<TrStep>)
    requires c.motor == [] && c.ankle == []
    ensures CollectLoop(motorSign, ankEncSign, None, c, steps).motor == []
    ensures CollectLoop(motorSign, ankEncSign, None, c, steps).ankle == []
    decreases |steps|
  {
    if !c.killed && |steps| > 0 {
      NoOffsetRecordsNothing(motorSign, ankEncSign, CollectStep(motorSign, ankEncSign, None, c, steps[0]), steps[1..]);
    }
  }

  /** The loop ends with the kill flag set exactly when it was set already or a stop request came. */
  lemma {:induction false} KilledIffStopRequested(motorSign: int, ankEncSign: int, offset: Option<real>, c: Collection, steps: seq<TrStep>)
    ensures CollectLoop(motorSign, ankEncSign, offset, c, steps).killed <==> c.killed || StopRequest in steps
    decreases |steps|
  {
    if !c.killed && |steps| > 0 {
      assert StopRequest in steps <==> steps[0] == StopRequest || StopRequest in steps[1..];
      KilledIffStopRequested(motorSign, ankEncSign, offset, CollectStep(motorSign, ankEncSign, offset, c, steps[0]), steps[1..]);
    }
  }

  /** The packet that fixed the offset reads as ankle angle 0. */
  lemma OffsetSampleReadsZero(motorSign: int, ankEncSign: int, ank: int, mot: int)
    ensures CollectLoop(motorSign, ankEncSign, Some(SignedAngle(ankEncSign, ank)),
                        Collection(0, [], [], false), [Sample(ank, mot)]).ankle == [0.0]
  {
    assert [Sample(ank, mot)][1..] == [];
  }

  /** How `collect` ended. */
  datatype CollectEnd =
    | StillCollecting   // the steps ran out before the stop request
    | FitFailed         // stopped with no recorded sample: the fit raises on empty vectors
    | Completed         // motor off and the coefficient file written

  /** The characteriser of one device. */
  class TRCharacterizer {
    const side: string
    const deviceId: int
    const motorSign: int
    const ankEncSign: int
    var kill: bool
    var offset: Option<real>
    var commands: seq<int>            // currents sent to the device, in order (mA)
    var motorAngleVec: seq<real>
    var ankleAngleVec: seq<real>
    var curveCoeffs: seq<real>        // cubic fit of motor angle against ankle angle
    var trCoeffs: seq<real>           // its derivative: the transmission-ratio curve
    var coefRows: seq<seq<real>>      // rows of the coefficient file

    ghost predicate Valid()
      reads this
    {
      |motorAngleVec| == |ankleAngleVec|
    }

    /** `__init__` for a device whose identifier the sign tables know. */
    constructor (side: string, deviceId: int)
      requires KnownId(deviceId)
      ensures Valid() && this.side == side && this.deviceId == deviceId
      ensures motorSign == DEV_ID_TO_MOTOR_SIGN_DICT[deviceId] && ankEncSign == DEV_ID_TO_ANK_ENC_SIGN_DICT[deviceId]
      ensures !kill && offset.None? && commands == [] && motorAngleVec == [] && ankleAngleVec == []
      ensures curveCoeffs == [] && trCoeffs == [] && coefRows == []
    {
      IdTablesTotalOnKnownIds();
      this.side := side;
      this.deviceId := deviceId;
      motorSign := DEV_ID_TO_MOTOR_SIGN_DICT[deviceId];
      ankEncSign := DEV_ID_TO_ANK_ENC_SIGN_DICT[deviceId];
      kill := false;
      offset := None;
      commands := [];
      motorAngleVec, ankleAngleVec := [], [];
      curveCoeffs, trCoeffs, coefRows := [], [], [];
    }

    /** `start`: pull the belt taut and lock in the offset from one reading of the ankle encoder. */
    method Start(ankAng: int)
      modifies this`commands, this`offset
      ensures commands == old(commands) + [motorSign * BIAS_CURRENT]
      ensures offset == Some(SignedAngle(ankEncSign, ankAng))
    {
      commands := commands + [motorSign * BIAS_CURRENT];
      offset := Some(SignedAngle(ankEncSign, ankAng));
    }

    /** `stop`: set the kill flag the collection loop polls. */
    method Stop()
      modifies this`kill
      ensures kill
    {
      kill := true;
    }

    /**
      `collect`: hold the bias current, run the loop, then fit, differentiate, turn the
      motor off and write the three coefficient rows. `fit` is what the least-squares fit
      returns for the recorded vectors.
    */
    method Collect(steps: seq<TrStep>, fit: seq<real>) returns (iterations: nat, end: CollectEnd)
      requires |fit| == 4
      modifies this
      ensures Valid()
      ensures var r := CollectLoop(motorSign, ankEncSign, offset, Collection(0, [], [], old(kill)), steps);
              && iterations == r.iterations && motorAngleVec == r.motor && ankleAngleVec == r.ankle && kill == r.killed
              && end == (if !r.killed then StillCollecting else if |r.motor| == 0 then FitFailed else Completed)
      ensures offset == old(offset)
      ensures end == Completed ==> && offset.Some?
                                   && commands == old(commands) + [motorSign * BIAS_CURRENT, 0]
                                   && curveCoeffs == fit && trCoeffs == PolyDer(fit)
                                   && coefRows == [fit, PolyDer(fit), [offset.value]]
      ensures end != Completed ==> && commands == old(commands) + [motorSign * BIAS_CURRENT]
                                   && curveCoeffs == old(curveCoeffs) && trCoeffs == old(trCoeffs)
                                   && coefRows == old(coefRows)
    {
      commands := commands + [motorSign * BIAS_CURRENT];
      motorAngleVec, ankleAngleVec := [], [];
      iterations := 0;
      ghost var c0 := Collection(0, [], [], kill);
      var i := 0;
      assert steps[0..] == steps;
      while !kill && i < |steps|
        invariant 0 <= i <= |steps|
        invariant |motorAngleVec| == |ankleAngleVec|
        invariant CollectLoop(motorSign, ankEncSign, offset, c0, steps)
               == CollectLoop(motorSign, ankEncSign, offset, Collection(iterations, motorAngleVec, ankleAngleVec, kill), steps[i..])
        modifies this`kill, this`motorAngleVec, this`ankleAngleVec
        decreases |steps| - i
      {
        assert steps[i..][0] == steps[i] && steps[i..][1..] == steps[i + 1..];
        match steps[i] {
          case StopRequest =>
            Stop();
          case ReadFails =>
          case Malformed =>
            iterations := iterations + 1;
          case Sample(ank, mot) =>
            iterations := iterations + 1;
            if offset.Some? {
              motorAngleVec := motorAngleVec + [SignedAngle(motorSign, mot)];
              ankleAngleVec := ankleAngleVec + [SignedAngle(ankEncSign, ank) - offset.value];
            }
        }
        i := i + 1;
      }
      if offset.None? {
        NoOffsetRecordsNothing(motorSign, ankEncSign, c0, steps);
      }

      if !kill {
        end := StillCollecting;
      } else if |motorAngleVec| == 0 {
        end := FitFailed;
      } else {
        curveCoeffs := fit;
        trCoeffs := PolyDer(fit);
        commands := commands + [0];
        coefRows := [curveCoeffs, trCoeffs, [offset.value]];
        end := Completed;
      }
    }
  }

  /** A characteriser for a device that the tables may not know; `null` when the lookup raises. */
  method NewCharacterizer(side: string, deviceId: int) returns (t: TRCharacterizer?)
    ensures t == null <==> !KnownId(deviceId)
    ensures t != null ==> fresh(t) && t.Valid() && !t.kill && t.offset.None? && t.motorSign == -1
    ensures t != null ==> t.ankEncSign == (if deviceId in RIGHT_EXO_DEV_IDS then -1 else 1)
  {
    if KnownId(deviceId) {
      SignsOfKnownIds();
      t := new TRCharacterizer(side, deviceId);
    } else {
      t := null;
    }
  }
}
