/**
  The session wrapper of the two-actuator controller: which connected device is the left
  one, the mode flags derived from the command line, and the order in which a session
  sets and clears its shared events and shuts the devices down.

  Devices are named by the identifier they report once opened; a device that could not be
  opened is `None`. What happens on the flexsea transport, in the other threads and on the
  console is outside this model.
*/
module Wrapper {
  import opened Common
  import opened Constants
  import opened Coordination

  // ---------------------------------------------------------------- device ordering

  /** Why the two devices could not be put in order. */
  datatype PortError =
    | OpenFailed              // a device could not be opened
    | UnknownDevice(id: int)  // the side lookup raised KeyError for this identifier
    | InvalidSides            // the first side is neither "left" nor "right"

  /** `(side_left, device_left, side_right, device_right)`, each device named by its identifier. */
  datatype Ports = Ports(sideLeft: string, leftId: int, sideRight: string, rightId: int)

  /**
    The ordering rule: keep the order when the first device is the left one, swap it when
    the first is the right one, and fail otherwise. Each side stays with its device.
  */
  function OrderBySide(side1: string, id1: int, side2: string, id2: int): (r: Result<Ports, PortError>)
    ensures r.Ok? <==> side1 == "left" || side1 == "right"
    ensures r.Err? ==> r.error == InvalidSides
    ensures r.Ok? ==> multiset{(r.value.sideLeft, r.value.leftId), (r.value.sideRight, r.value.rightId)}
                      == multiset{(side1, id1), (side2, id2)}
    ensures r.Ok? && side1 != side2 && side2 in {"left", "right"} ==>
              r.value.sideLeft == "left" && r.value.sideRight == "right"
  {
    if side1 == "left" then Ok(Ports(side1, id1, side2, id2))
    else if side1 == "right" then Ok(Ports(side2, id2, side1, id1))
    else Err(InvalidSides)
  }

  /** Ordering an ordered pair again changes nothing once its first side is "left". */
  lemma OrderBySideStable(side1: string, id1: int, side2: string, id2: int)
    requires OrderBySide(side1, id1, side2, id2).Ok?
    requires side1 != side2 && side2 in {"left", "right"}
    ensures var p := OrderBySide(side1, id1, side2, id2).value;
            OrderBySide(p.sideLeft, p.leftId, p.sideRight, p.rightId) == Ok(p)
  {
  }

  /**
    `get_active_ports`: open both devices (a failure raises), look up both sides (KeyError
    for an unknown identifier, the first device first), then order them.
  */
  function GetActivePorts(d1: Option<int>, d2: Option<int>): (r: Result<Ports, PortError>)
    ensures r.Ok? <==> d1.Some? && d2.Some? && KnownId(d1.value) && KnownId(d2.value)
    ensures r.Err? && r.error == OpenFailed <==> d1.None? || d2.None?
    ensures r.Err? ==> r.error != InvalidSides
    ensures r.Ok? ==> KnownId(r.value.leftId) && KnownId(r.value.rightId)
                      && r.value.sideLeft == DEV_ID_TO_SIDE_DICT[r.value.leftId]
                      && r.value.sideRight == DEV_ID_TO_SIDE_DICT[r.value.rightId]
  {
    IdTablesTotalOnKnownIds();
    SideOfKnownIds();
    if d1.None? || d2.None? then Err(OpenFailed)
    else if !KnownId(d1.value) then Err(UnknownDevice(d1.value))
    else if !KnownId(d2.value) then Err(UnknownDevice(d2.value))
    else OrderBySide(DEV_ID_TO_SIDE_DICT[d1.value], d1.value, DEV_ID_TO_SIDE_DICT[d2.value], d2.value)
  }

  /** One left and one right device come back left first, whichever port each is on. */
  lemma OneOfEachSideLeftFirst(id1: int, id2: int)
    requires (id1 in LEFT_EXO_DEV_IDS && id2 in RIGHT_EXO_DEV_IDS) || (id1 in RIGHT_EXO_DEV_IDS && id2 in LEFT_EXO_DEV_IDS)
    ensures var r := GetActivePorts(Some(id1), Some(id2));
            && r.Ok?
            && r.value.leftId in LEFT_EXO_DEV_IDS && r.value.rightId in RIGHT_EXO_DEV_IDS
            && r.value.sideLeft == "left" && r.value.sideRight == "right"
  {
    SideOfKnownIds();
  }

  /** Two devices of the same side are accepted and kept in port order. */
  lemma SameSideDevicesKept(id1: int, id2: int)
    requires (id1 in LEFT_EXO_DEV_IDS && id2 in LEFT_EXO_DEV_IDS) || (id1 in RIGHT_EXO_DEV_IDS && id2 in RIGHT_EXO_DEV_IDS)
    ensures var r := GetActivePorts(Some(id1), Some(id2));
            r.Ok? && r.value.leftId == (if id1 in LEFT_EXO_DEV_IDS then id1 else id2)
            && r.value.sideLeft == r.value.sideRight
  {
    SideOfKnownIds();
  }

  /** An unknown identifier on the first port is reported before the second is looked at. */
  lemma FirstUnknownReportedFirst(id1: int, id2: int)
    requires !KnownId(id1)
    ensures GetActivePorts(Some(id1), Some(id2)) == Err(UnknownDevice(id1))
  {
  }

  // ---------------------------------------------------------------- command line

  /** The spellings of the backup argument that turn backup loading on (case-sensitive). */
  const BACKUP_SPELLINGS: seq<string> := ["true", "True", "1", "yes", "Yes"]

  /** Conditions of PREF that let the gait estimator change peak torque during strides. */
  const CONTINUOUS_CONDS: seq<string> := ["SLIDER", "DIAL"]

  /** Conditions of VICKREY that use the alternate current bounds. */
  const OVERRIDE_CONDS: seq<string> := ["WNE", "NPO"]

  predicate ContinuousMode(trialType: string, trialCond: string) {
    trialType == "PREF" && trialCond in CONTINUOUS_CONDS
  }

  predicate OverrideCurrentBounds(trialType: string, trialCond: string) {
    trialType == "VICKREY" && trialCond in OVERRIDE_CONDS
  }

  /** The keyword arguments the wrapper's entry point builds for the controller. */
  datatype ControllerArgs = ControllerArgs(
    subjectID: string, trialType: string, trialCond: string, description: string,
    usebackup: bool, continuousmode: bool, overridedefaultcurrentbounds: bool)

  /**
    The entry point's argument handling: `argv` is the full argument vector, program name
    first. Anything but five arguments fails the length assertion (`None`). The stored type
    and condition are already upper case, the two alternative modes never hold together,
    and the alternate current bounds are only chosen for a condition the trial table lists.
  */
  function ParseArgs(argv: seq<string>): (r: Option<ControllerArgs>)
    ensures r.Some? <==> |argv| == 6
    ensures r.Some? ==> && r.value.subjectID == argv[1] && r.value.description == argv[4]
                        && r.value.trialType == Upper(argv[2]) && r.value.trialCond == Upper(argv[3])
                        && (r.value.usebackup <==> argv[5] in BACKUP_SPELLINGS)
    ensures r.Some? ==> (r.value.continuousmode <==> ContinuousMode(Upper(argv[2]), Upper(argv[3])))
    ensures r.Some? ==> (r.value.overridedefaultcurrentbounds <==> OverrideCurrentBounds(Upper(argv[2]), Upper(argv[3])))
    ensures r.Some? ==> Upper(r.value.trialType) == r.value.trialType && Upper(r.value.trialCond) == r.value.trialCond
    ensures r.Some? ==> !(r.value.continuousmode && r.value.overridedefaultcurrentbounds)
    ensures r.Some? && r.value.overridedefaultcurrentbounds ==>
              r.value.trialType in TRIAL_CONDS_DICT && r.value.trialCond in TRIAL_CONDS_DICT[r.value.trialType]
  {
    if |argv| - 1 != 5 then None
    else
      var trialType := Upper(argv[2]);
      var trialCond := Upper(argv[3]);
      UpperIdempotent(argv[2]);
      UpperIdempotent(argv[3]);
      Some(ControllerArgs(argv[1], trialType, trialCond, argv[4], argv[5] in BACKUP_SPELLINGS,
                          ContinuousMode(trialType, trialCond), OverrideCurrentBounds(trialType, trialCond)))
  }

  /**
    Trial type and condition are compared after upper-casing, so arguments that differ only
    in the case of a..z give the same flags; the backup spelling is compared as typed.
  */
  lemma ModesIgnoreCase(argv: seq<string>, argv': seq<string>)
    requires |argv| == 6 && |argv'| == 6
    requires Upper(argv[2]) == Upper(argv'[2]) && Upper(argv[3]) == Upper(argv'[3])
    ensures ParseArgs(argv).value.continuousmode == ParseArgs(argv').value.continuousmode
    ensures ParseArgs(argv).value.overridedefaultcurrentbounds == ParseArgs(argv').value.overridedefaultcurrentbounds
    ensures ParseArgs(argv).value.trialType == ParseArgs(argv').value.trialType
  {
  }

  /** Parsing the upper-cased type and condition again gives the same controller arguments. */
  lemma ParseArgsNormalised(argv: seq<string>)
    requires |argv| == 6
    ensures ParseArgs(argv[2 := Upper(argv[2])][3 := Upper(argv[3])]) == ParseArgs(argv)
  {
    UpperIdempotent(argv[2]);
    UpperIdempotent(argv[3]);
  }

  /** Lower-case "pref"/"dial" selects continuous mode; "YES" does not turn backup on. */
  lemma ParseArgsExample()
    ensures var r := ParseArgs(["Exoboot_Wrapper.py", "S01", "pref", "dial", "d", "YES"]);
            r.Some? && r.value.trialType == "PREF" && r.value.continuousmode && !r.value.usebackup
  {
    assert Upper("pref") == "PREF";
    assert Upper("dial") == "DIAL";
  }

  /**
    The continuous-mode conditions are not the conditions the trial table lists for PREF:
    DIAL selects continuous mode but is not a listed PREF condition, and the listed BTN
    does not select it.
  */
  lemma ContinuousConditionsDifferFromTable()
    ensures ContinuousMode("PREF", "DIAL") && "DIAL" !in TRIAL_CONDS_DICT["PREF"]
    ensures "BTN" in TRIAL_CONDS_DICT["PREF"] && !ContinuousMode("PREF", "BTN")
    ensures forall c :: OverrideCurrentBounds("VICKREY", c) ==> c in TRIAL_CONDS_DICT["VICKREY"]
  {
  }

  // ---------------------------------------------------------------- session events

  /** `quit_event.set()`, `pause_event.clear()`, `log_event.clear()`: threads start paused. */
  const WRAPPER_INIT: seq<Action> := [SetEvent(Quit), ClearEvent(Pause), ClearEvent(Log)]

  const INITIAL_SIGNALS: Signals := Signals(true, false, false)

  /**
    One iteration of the main loop from event state `s`: it calls the logging nexus's `log`
    only when the log event is set; a keyboard interrupt is caught inside the loop and clears quit; any
    other exception leaves the loop; another thread may set or clear an event. The actions
    a pass records account for the event state it leaves.
  */
  function WrapperPass(s: Signals, step: LoopStep): (p: PassResult)
    ensures p.exit.Some? <==> step == Fault
    ensures p.exit.Some? ==> p.exit.value == Raised && p.out == [] && p.next == s
    ensures step == Pass ==> p.out == (if s.log then [LogFlush] else []) && p.next == s
    ensures step == Interrupt ==> p.out == [ClearEvent(Quit)] && !p.next.quit
                                  && p.next.pause == s.pause && p.next.log == s.log
    ensures step.External? ==> p.out == [EventAction(step.signal, step.value)]
    ensures LogFlush in p.out <==> step == Pass && s.log
    ensures ApplyAll(s, p.out) == p.next
  {
    match step
    case Pass => PassResult(if s.log then [LogFlush] else [], s, None)
    case Interrupt => PassResult([ClearEvent(Quit)], s.(quit := false), None)
    case Fault => PassResult([], s, Some(Raised))
    case External(signal, value) => PassResult([EventAction(signal, value)], Apply(s, signal, value), None)
  }

  /**
    The main loop from event state `s`: iterations while quit is set, until one leaves the
    loop. An interrupt never ends it, and replaying the recorded actions on `s` leaves quit
    cleared when the loop saw it cleared, and set when the steps ran out.
  */
  function MainLoop(s: Signals, steps: seq<LoopStep>): (r: (seq<Action>, LoopEnd))
    ensures r.1 != Interrupted
    ensures r.1 == StepsExhausted ==> s.quit
    ensures r.1 == QuitCleared ==> !ApplyAll(s, r.0).quit
    ensures r.1 == StepsExhausted ==> ApplyAll(s, r.0).quit
    decreases |steps|
  {
    if !s.quit then ([], QuitCleared)
    else if |steps| == 0 then ([], StepsExhausted)
    else
      var p := WrapperPass(s, steps[0]);
      if p.exit.Some? then (p.out, p.exit.value)
      else
        var next := MainLoop(p.next, steps[1..]);
        ApplyAllConcat(s, p.out, next.0);
        (p.out + next.0, next.1)
  }

  /**
    `run`: order the ports; initialise the events; loop; and in `finally` run the ordered
    shutdown. If ordering the ports raises, the events do not exist yet and the first line
    of `finally` raises in turn: nothing is recorded and the exception escapes.
  */
  function WrapperRun(ports: Result<Ports, PortError>, steps: seq<LoopStep>): (seq<Action>, Outcome) {
    if ports.Err? then ([], Propagated)
    else
      var loop := MainLoop(INITIAL_SIGNALS, steps);
      if loop.1 == StepsExhausted then (WRAPPER_INIT + loop.0, Running)
      else (WRAPPER_INIT + loop.0 + SHUTDOWN, Finished)
  }

  /** The loop from `s0` has recorded `acc` and reached event state `s` before step `i`. */
  ghost predicate LoopReached(s0: Signals, steps: seq<LoopStep>, i: nat, acc: seq<Action>, s: Signals)
    requires i <= |steps|
  {
    && MainLoop(s0, steps).0 == acc + MainLoop(s, steps[i..]).0
    && MainLoop(s0, steps).1 == MainLoop(s, steps[i..]).1
  }

  /** One more iteration keeps the loop's account, or ends it with what was recorded. */
  lemma LoopAdvance(s0: Signals, steps: seq<LoopStep>, i: nat, acc: seq<Action>, s: Signals)
    requires i < |steps| && s.quit && LoopReached(s0, steps, i, acc, s)
    ensures var p := WrapperPass(s, steps[i]);
            && (p.exit.None? ==> LoopReached(s0, steps, i + 1, acc + p.out, p.next))
            && (p.exit.Some? ==> MainLoop(s0, steps).0 == acc + p.out && MainLoop(s0, steps).1 == p.exit.value)
  {
    assert steps[i..][0] == steps[i] && steps[i..][1..] == steps[i + 1..];
    var p := WrapperPass(s, steps[i]);
    if p.exit.None? {
      assert acc + (p.out + MainLoop(p.next, steps[i + 1..]).0) == (acc + p.out) + MainLoop(p.next, steps[i + 1..]).0;
    }
  }

  /** With quit clear or no steps left, the loop records nothing more. */
  lemma LoopFinished(s0: Signals, steps: seq<LoopStep>, i: nat, acc: seq<Action>, s: Signals)
    requires i <= |steps| && LoopReached(s0, steps, i, acc, s)
    requires !s.quit || i == |steps|
    ensures MainLoop(s0, steps).0 == acc
    ensures MainLoop(s0, steps).1 == (if s.quit then StepsExhausted else QuitCleared)
  {
    assert acc + [] == acc;
  }

  /** One iteration over the three event objects. */
  method WrapperIteration(quit: Event, pause: Event, log: Event, step: LoopStep) returns (out: seq<Action>, exit: Option<LoopEnd>)
    requires quit != pause && quit != log && pause != log
    modifies quit, pause, log
    ensures var p := WrapperPass(old(Read(quit, pause, log)), step);
            out == p.out && exit == p.exit && Read(quit, pause, log) == p.next
  {
    match step {
      case Pass =>
        out := if log.IsSet() then [LogFlush] else [];
        exit := None;
      case Interrupt =>
        quit.Clear();
        out, exit := [ClearEvent(Quit)], None;
      case Fault =>
        out, exit := [], Some(Raised);
      case External(signal, value) =>
        SetOrClear(quit, pause, log, signal, value);
        out, exit := [EventAction(signal, value)], None;
    }
  }

  /** The imperative `run`, over three event objects, returning what it did and how it ended. */
  method Run(ports: Result<Ports, PortError>, steps: seq<LoopStep>) returns (trace: seq<Action>, outcome: Outcome)
    ensures (trace, outcome) == WrapperRun(ports, steps)
  {
    if ports.Err? {
      return [], Propagated;
    }
    var quit := new Event();
    var pause := new Event();
    var log := new Event();
    quit.Set();
    pause.Clear();
    log.Clear();
    trace := WRAPPER_INIT;

    ghost var acc: seq<Action> := [];
    var i := 0;
    var exit: Option<LoopEnd> := None;
    assert steps[0..] == steps;
    while quit.IsSet() && exit.None? && i < |steps|
      invariant 0 <= i <= |steps|
      invariant trace == WRAPPER_INIT + acc
      invariant exit.None? ==> LoopReached(INITIAL_SIGNALS, steps, i, acc, Read(quit, pause, log))
      invariant exit.Some? ==> MainLoop(INITIAL_SIGNALS, steps).0 == acc && MainLoop(INITIAL_SIGNALS, steps).1 == exit.value
      invariant exit.Some? ==> exit.value == Raised
      decreases |steps| - i
    {
      LoopAdvance(INITIAL_SIGNALS, steps, i, acc, Read(quit, pause, log));
      var out, e := WrapperIteration(quit, pause, log, steps[i]);
      trace, acc := trace + out, acc + out;
      exit := e;
      i := i + 1;
    }

    if exit.None? {
      LoopFinished(INITIAL_SIGNALS, steps, i, acc, Read(quit, pause, log));
    }
    if exit.None? && quit.IsSet() {
      outcome := Running;
    } else {
      pause.Set();
      quit.Clear();
      trace := trace + SHUTDOWN;
      outcome := Finished;
    }
  }

  /** A keyboard interrupt the loop reaches always ends the loop. */
  lemma {:induction false} InterruptEndsLoop(s: Signals, steps: seq<LoopStep>)
    requires Interrupt in steps
    ensures MainLoop(s, steps).1 != StepsExhausted
    decreases |steps|
  {
    if s.quit && steps[0] != Interrupt && steps[0] != Fault {
      assert Interrupt in steps[1..];
      match steps[0]
      case Pass => InterruptEndsLoop(s, steps[1..]);
      case External(signal, value) => InterruptEndsLoop(Apply(s, signal, value), steps[1..]);
    }
  }

  /** With the ports in order, a keyboard interrupt among the steps means the session shuts down. */
  lemma InterruptShutsDown(ports: Result<Ports, PortError>, steps: seq<LoopStep>)
    requires ports.Ok? && Interrupt in steps
    ensures WrapperRun(ports, steps).1 == Finished
  {
    InterruptEndsLoop(INITIAL_SIGNALS, steps);
  }

  /** A session still running has met neither an interrupt nor an exception. */
  lemma {:induction false} RunningLoopSawNoStop(s: Signals, steps: seq<LoopStep>)
    requires MainLoop(s, steps).1 == StepsExhausted
    ensures Interrupt !in steps && Fault !in steps
    decreases |steps|
  {
    if |steps| > 0 {
      match steps[0]
      case Pass => RunningLoopSawNoStop(s, steps[1..]);
      case External(signal, value) => RunningLoopSawNoStop(Apply(s, signal, value), steps[1..]);
    }
  }

  /**
    Every session that returns starts with the event initialisation and ends with the ordered
    shutdown: pause set, quit cleared, both motors stopped, both devices closed.
  */
  lemma FinishedTraceShape(ports: Result<Ports, PortError>, steps: seq<LoopStep>)
    requires WrapperRun(ports, steps).1 == Finished
    ensures var t := WrapperRun(ports, steps).0;
            |t| >= |WRAPPER_INIT| + |SHUTDOWN| && t[..3] == WRAPPER_INIT && t[|t| - 6..] == SHUTDOWN
  {
  }

  /**
    The logging nexus's `log` is only called while the log event is set, so it never is
    unless another thread sets that event.
  */
  lemma {:induction false} NoFlushWithoutLogEvent(s: Signals, steps: seq<LoopStep>)
    requires !s.log
    requires forall j :: 0 <= j < |steps| ==> steps[j] != External(Log, true)
    ensures LogFlush !in MainLoop(s, steps).0
    decreases |steps|
  {
    if s.quit && |steps| > 0 {
      assert forall j :: 0 <= j < |steps| - 1 ==> steps[1..][j] == steps[j + 1];
      match steps[0]
      case Pass => NoFlushWithoutLogEvent(s, steps[1..]);
      case Interrupt => NoFlushWithoutLogEvent(s.(quit := false), steps[1..]);
      case Fault =>
      case External(signal, value) => NoFlushWithoutLogEvent(Apply(s, signal, value), steps[1..]);
    }
  }
}
