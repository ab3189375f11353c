/**
  The bench-test controller: it normalises the subject arguments, validates the trial
  type and condition against the trial table (an invalid pair only prints the usage text),
  looks up connected devices by side, and runs a main loop that calls the logging nexus's
  `log` on every iteration until quit is cleared, with the same ordered shutdown as the
  full wrapper.

  Opening devices, streaming, gains, the gait-estimator, logging and remote-control
  threads and the IP lookup are outside this model; the session is taken to drive one
  left and one right actuator, as its `run` does.
*/
module EwTest {
  import opened Common
  import opened Constants
  import opened Coordination
  import Wrapper

  // ---------------------------------------------------------------- subject settings

  /** The subject settings kept by the controller. */
  datatype Settings = Settings(
    subjectID: string, trialType: string, trialCond: string, description: string, usebackup: bool)

  /**
    The constructor's argument handling: type and condition upper-cased, backup parsed from
    its spellings. The stored type and condition are their own upper case.
  */
  function Normalise(subjectID: string, trialType: string, trialCond: string, description: string,
                     usebackup: string): (r: Settings)
    ensures r.subjectID == subjectID && r.description == description
    ensures r.trialType == Upper(trialType) && r.trialCond == Upper(trialCond)
    ensures r.usebackup <==> usebackup in Wrapper.BACKUP_SPELLINGS
    ensures Upper(r.trialType) == r.trialType && Upper(r.trialCond) == r.trialCond
  {
    UpperIdempotent(trialType);
    UpperIdempotent(trialCond);
    Settings(subjectID, Upper(trialType), Upper(trialCond), description, usebackup in Wrapper.BACKUP_SPELLINGS)
  }

  /**
    The entry point: exactly five arguments after the program name, otherwise it exits. It
    accepts the same argument vectors as the full wrapper and stores the same subject,
    type, condition, description and backup flag as the wrapper derives.
  */
  function EntryArgs(argv: seq<string>): (r: Option<Settings>)
    ensures r.Some? <==> |argv| == 6
    ensures r.Some? ==> r.value == Normalise(argv[1], argv[2], argv[3], argv[4], argv[5])
    ensures r.Some? <==> Wrapper.ParseArgs(argv).Some?
    ensures r.Some? ==> var w := Wrapper.ParseArgs(argv).value;
                        && r.value.subjectID == w.subjectID && r.value.trialType == w.trialType
                        && r.value.trialCond == w.trialCond && r.value.description == w.description
                        && r.value.usebackup == w.usebackup
  {
    if |argv| - 1 != 5 then None
    else Some(Normalise(argv[1], argv[2], argv[3], argv[4], argv[5]))
  }

  /** Normalising settings that are already normalised changes nothing. */
  lemma NormaliseIdempotent(s: Settings, usebackup: string)
    requires s == Normalise(s.subjectID, s.trialType, s.trialCond, s.description, usebackup)
    ensures Normalise(s.subjectID, Upper(s.trialType), Upper(s.trialCond), s.description, usebackup) == s
  {
    UpperIdempotent(s.trialType);
    UpperIdempotent(s.trialCond);
  }

  /**
    `"{}_{}_{}_{}".format(subjectID, trial_type, trial_cond, description)`: the four settings
    in order, each pair separated by one underscore.
  */
  function FilePrefix(s: Settings): (r: string)
    ensures |r| == |s.subjectID| + |s.trialType| + |s.trialCond| + |s.description| + 3
    ensures var a := |s.subjectID|;
            var b := a + 1 + |s.trialType|;
            var c := b + 1 + |s.trialCond|;
            && r[..a] == s.subjectID && r[a] == '_'
            && r[a + 1..b] == s.trialType && r[b] == '_'
            && r[b + 1..c] == s.trialCond && r[c] == '_'
            && r[c + 1..] == s.description
  {
    s.subjectID + "_" + s.trialType + "_" + s.trialCond + "_" + s.description
  }

  // ---------------------------------------------------------------- trial validation

  /**
    The check in `init_subject`: the type must be a key of the trial table, and when its
    list of conditions is not empty the condition must be in it.
  */
  predicate ValidTrial(trialType: string, trialCond: string) {
    trialType in TRIAL_CONDS_DICT
    && (TRIAL_CONDS_DICT[trialType] == [] || trialCond in TRIAL_CONDS_DICT[trialType])
  }

  /** The types that accept any condition. */
  const OPEN_TYPES: set<string> := {"VAS", "ACCLIMATION"}

  /** Every (type, condition) pair the table lists. */
  const LISTED_PAIRS: set<(string, string)> :=
    {("VICKREY", "WNE"), ("VICKREY", "EPO"), ("VICKREY", "NPO"),
     ("JND", "SPLITLEG"), ("JND", "SAMELEG"),
     ("PREF", "SLIDER"), ("PREF", "BTN")}

  /** A pair passes validation exactly when its type is open or the pair is listed. */
  lemma ValidTrialTable(trialType: string, trialCond: string)
    ensures ValidTrial(trialType, trialCond) <==> trialType in OPEN_TYPES || (trialType, trialCond) in LISTED_PAIRS
  {
    TrialTypesAreTheKeys();
    if trialType in TRIAL_CONDS_DICT {
      assert trialType in TRIAL_TYPES;
    }
  }

  /** What `init_subject` leaves behind: whether it printed the usage text, and the file prefix. */
  datatype SubjectCheck = SubjectCheck(printedUsage: bool, filePrefix: string)

  /**
    Validation only prints: the usage text is printed exactly when the pair is not open
    and not listed, and the file prefix is set either way.
  */
  function InitSubject(s: Settings): (r: SubjectCheck)
    ensures r.printedUsage <==> !(s.trialType in OPEN_TYPES || (s.trialType, s.trialCond) in LISTED_PAIRS)
    ensures r.filePrefix == FilePrefix(s)
  {
    ValidTrialTable(s.trialType, s.trialCond);
    SubjectCheck(!ValidTrial(s.trialType, s.trialCond), FilePrefix(s))
  }

  /** Validation sees the upper-cased arguments, so lower-case input is accepted. */
  lemma LowerCaseTrialAccepted(subjectID: string, description: string, usebackup: string)
    ensures !InitSubject(Normalise(subjectID, "vickrey", "wne", description, usebackup)).printedUsage
  {
    var t, c := Upper("vickrey"), Upper("wne");
    assert t[0] == 'V' && t[1] == 'I' && t[2] == 'C' && t[3] == 'K' && t[4] == 'R' && t[5] == 'E' && t[6] == 'Y';
    assert t == "VICKREY";
    assert c[0] == 'W' && c[1] == 'N' && c[2] == 'E';
    assert c == "WNE";
  }

  /** DIAL, which selects the wrapper's continuous mode, is rejected here for PREF. */
  lemma PrefDialRejected(subjectID: string, description: string, usebackup: string)
    ensures InitSubject(Normalise(subjectID, "pref", "dial", description, usebackup)).printedUsage
  {
    var t, c := Upper("pref"), Upper("dial");
    assert t[0] == 'P' && t[1] == 'R' && t[2] == 'E' && t[3] == 'F';
    assert t == "PREF";
    assert c[0] == 'D' && c[1] == 'I' && c[2] == 'A' && c[3] == 'L';
    assert c == "DIAL";
  }

  /** An open type accepts every condition, even one that no type lists. */
  lemma OpenTypesAcceptAnything(trialCond: string)
    ensures ValidTrial("VAS", trialCond) && ValidTrial("ACCLIMATION", trialCond)
  {
  }

  // ---------------------------------------------------------------- devices

  /** `get_active_port_single`: open the device and look up its side by identifier. */
  function GetActivePortSingle(d: Option<int>): (r: Result<(string, int), Wrapper.PortError>)
    ensures r.Ok? <==> d.Some? && KnownId(d.value)
    ensures r.Err? ==> r.error == (if d.None? then Wrapper.OpenFailed else Wrapper.UnknownDevice(d.value))
    ensures r.Ok? ==> r.value.1 == d.value && r.value.0 == DEV_ID_TO_SIDE_DICT[d.value]
                      && r.value.0 in {"left", "right"}
  {
    IdTablesTotalOnKnownIds();
    SideOfKnownIds();
    if d.None? then Err(Wrapper.OpenFailed)
    else if !KnownId(d.value) then Err(Wrapper.UnknownDevice(d.value))
    else Ok((DEV_ID_TO_SIDE_DICT[d.value], d.value))
  }

  /**
    The two-device lookup of this controller is the wrapper's rule: when each device on its
    own resolves, the pair resolves, and each side stays with its device.
  */
  lemma SinglePortsAgreeWithPair(d1: Option<int>, d2: Option<int>)
    requires GetActivePortSingle(d1).Ok? && GetActivePortSingle(d2).Ok?
    ensures var r := Wrapper.GetActivePorts(d1, d2);
            var p1 := GetActivePortSingle(d1).value;
            var p2 := GetActivePortSingle(d2).value;
            && r.Ok?
            && multiset{(r.value.sideLeft, r.value.leftId), (r.value.sideRight, r.value.rightId)} == multiset{p1, p2}
  {
  }

  /** Either a device resolves, or the pair containing it does not. */
  lemma PairNeedsBothSingles(d1: Option<int>, d2: Option<int>)
    requires GetActivePortSingle(d1).Err? || GetActivePortSingle(d2).Err?
    ensures Wrapper.GetActivePorts(d1, d2).Err?
  {
  }

  // ---------------------------------------------------------------- session events

  /** The constructor's `pause_event.clear()`, `log_event.clear()`, `quit_event.set()`. */
  const EW_INIT: seq<Action> := [ClearEvent(Pause), ClearEvent(Log), SetEvent(Quit)]

  /** `run` sets all three events, then spools both belts. */
  const RUN_START: seq<Action> :=
    [SetEvent(Pause), SetEvent(Log), SetEvent(Quit), SpoolBelt(LeftLimb), SpoolBelt(RightLimb)]

  const RUN_SIGNALS: Signals := Signals(true, true, true)

  /** Both controllers initialise to quit set, pause and log clear, whatever the order. */
  lemma InitialisationsAgree(s: Signals)
    ensures ApplyAll(s, EW_INIT) == Wrapper.INITIAL_SIGNALS
    ensures ApplyAll(s, Wrapper.WRAPPER_INIT) == Wrapper.INITIAL_SIGNALS
  {
    assert EW_INIT[1..][1..][1..] == [];
    assert Wrapper.WRAPPER_INIT[1..][1..][1..] == [];
  }

  /** After spooling, all three events are set, whatever their state before `run`. */
  lemma RunStartState(s: Signals)
    ensures ApplyAll(s, RUN_START) == RUN_SIGNALS
  {
    assert RUN_START[1..][1..][1..][1..][1..] == [];
  }

  /**
    One iteration of the main loop from event state `s`: it calls the logging nexus's `log`
    on every pass without testing the log event itself; a keyboard interrupt is not caught
    by the loop's handler and leaves the loop, as does any other exception; another thread
    may set or clear an event. The actions a pass records account for the event state it
    leaves.
  */
  function EwPass(s: Signals, step: LoopStep): (p: PassResult)
    ensures p.exit.Some? <==> step == Interrupt || step == Fault
    ensures p.exit.Some? ==> p.out == [] && p.next == s
                             && p.exit.value == (if step == Interrupt then Interrupted else Raised)
    ensures step == Pass ==> p.out == [LogFlush] && p.next == s
    ensures step.External? ==> p.out == [EventAction(step.signal, step.value)]
    ensures LogFlush in p.out <==> step == Pass
    ensures ApplyAll(s, p.out) == p.next
  {
    match step
    case Pass => PassResult([LogFlush], s, None)
    case Interrupt => PassResult([], s, Some(Interrupted))
    case Fault => PassResult([], s, Some(Raised))
    case External(signal, value) => PassResult([EventAction(signal, value)], Apply(s, signal, value), None)
  }

  /**
    The main loop from event state `s`: iterations while quit is set, until one leaves the
    loop. Replaying the recorded actions on `s` leaves quit cleared when the loop saw it
    cleared, and set when the steps ran out.
  */
  function EwLoop(s: Signals, steps: seq<LoopStep>): (r: (seq<Action>, LoopEnd))
    ensures r.1 == StepsExhausted ==> s.quit
    ensures r.1 == QuitCleared ==> !ApplyAll(s, r.0).quit
    ensures r.1 == StepsExhausted ==> ApplyAll(s, r.0).quit
    decreases |steps|
  {
    if !s.quit then ([], QuitCleared)
    else if |steps| == 0 then ([], StepsExhausted)
    else
      var p := EwPass(s, steps[0]);
      if p.exit.Some? then (p.out, p.exit.value)
      else
        var next := EwLoop(p.next, steps[1..]);
        ApplyAllConcat(s, p.out, next.0);
        (p.out + next.0, next.1)
  }

  /**
    `run`: start, loop, and in `finally` the ordered shutdown; an exception is reported and
    the session returns, while a keyboard interrupt escapes once the shutdown has run.
  */
  function ControllerRun(steps: seq<LoopStep>): (seq<Action>, Outcome) {
    var loop := EwLoop(RUN_SIGNALS, steps);
    if loop.1 == StepsExhausted then (RUN_START + loop.0, Running)
    else (RUN_START + loop.0 + SHUTDOWN, if loop.1 == Interrupted then Propagated else Finished)
  }

  /** The loop from `s0` has recorded `acc` and reached event state `s` before step `i`. */
  ghost predicate LoopReached(s0: Signals, steps: seq<LoopStep>, i: nat, acc: seq<Action>, s: Signals)
    requires i <= |steps|
  {
    && EwLoop(s0, steps).0 == acc + EwLoop(s, steps[i..]).0
    && EwLoop(s0, steps).1 == EwLoop(s, steps[i..]).1
  }

  /** One more iteration keeps the loop's account, or ends it with what was recorded. */
  lemma LoopAdvance(s0: Signals, steps: seq<LoopStep>, i: nat, acc: seq<Action>, s: Signals)
    requires i < |steps| && s.quit && LoopReached(s0, steps, i, acc, s)
    ensures var p := EwPass(s, steps[i]);
            && (p.exit.None? ==> LoopReached(s0, steps, i + 1, acc + p.out, p.next))
            && (p.exit.Some? ==> EwLoop(s0, steps).0 == acc + p.out && EwLoop(s0, steps).1 == p.exit.value)
  {
    assert steps[i..][0] == steps[i] && steps[i..][1..] == steps[i + 1..];
    var p := EwPass(s, steps[i]);
    if p.exit.None? {
      assert acc + (p.out + EwLoop(p.next, steps[i + 1..]).0) == (acc + p.out) + EwLoop(p.next, steps[i + 1..]).0;
    }
  }

  /** With quit clear or no steps left, the loop records nothing more. */
  lemma LoopFinished(s0: Signals, steps: seq<LoopStep>, i: nat, acc: seq<Action>, s: Signals)
    requires i <= |steps| && LoopReached(s0, steps, i, acc, s)
    requires !s.quit || i == |steps|
    ensures EwLoop(s0, steps).0 == acc
    ensures EwLoop(s0, steps).1 == (if s.quit then StepsExhausted else QuitCleared)
  {
    assert acc + [] == acc;
  }

  /** One iteration over the three event objects. */
  method EwIteration(quit: Event, pause: Event, log: Event, step: LoopStep) returns (out: seq<Action>, exit: Option<LoopEnd>)
    requires quit != pause && quit != log && pause != log
    modifies quit, pause, log
    ensures var p := EwPass(old(Read(quit, pause, log)), step);
            out == p.out && exit == p.exit && Read(quit, pause, log) == p.next
  {
    match step {
      case Pass =>
        out, exit := [LogFlush], None;
      case Interrupt =>
        out, exit := [], Some(Interrupted);
      case Fault =>
        out, exit := [], Some(Raised);
      case External(signal, value) =>
        SetOrClear(quit, pause, log, signal, value);
        out, exit := [EventAction(signal, value)], None;
    }
  }

  /** The controller with its subject settings and its three shared events. */
  class MainController {
    const settings: Settings
    const subject: SubjectCheck
    const quit: Event
    const pause: Event
    const log: Event

    ghost predicate Valid()
      reads this
    {
      quit != pause && quit != log && pause != log
    }

    /** The part of `__init__` this model covers: settings, events, then `init_subject`. */
    constructor (subjectID: string, trialType: string, trialCond: string, description: string, usebackup: string)
      ensures Valid() && fresh(quit) && fresh(pause) && fresh(log)
      ensures settings == Normalise(subjectID, trialType, trialCond, description, usebackup)
      ensures subject == InitSubject(settings)
      ensures Read(quit, pause, log) == ApplyAll(Signals(false, false, false), EW_INIT)
    {
      var s := Normalise(subjectID, trialType, trialCond, description, usebackup);
      settings := s;
      var q := new Event();
      var p := new Event();
      var l := new Event();
      p.Clear();
      l.Clear();
      q.Set();
      quit, pause, log := q, p, l;
      subject := InitSubject(s);
      InitialisationsAgree(Signals(false, false, false));
    }

    /** The imperative `run` over the controller's events, returning what it did and how it ended. */
    method Run(steps: seq<LoopStep>) returns (trace: seq<Action>, outcome: Outcome)
      requires Valid()
      modifies quit, pause, log
      ensures (trace, outcome) == ControllerRun(steps)
      ensures outcome != Running ==> Read(quit, pause, log).pause && !Read(quit, pause, log).quit
    {
      pause.Set();
      log.Set();
      quit.Set();
      trace := RUN_START;

      ghost var acc: seq<Action> := [];
      var i := 0;
      var exit: Option<LoopEnd> := None;
      assert Read(quit, pause, log) == RUN_SIGNALS && steps[0..] == steps;
      while quit.IsSet() && exit.None? && i < |steps|
        invariant 0 <= i <= |steps|
        invariant trace == RUN_START + acc
        invariant exit.None? ==> LoopReached(RUN_SIGNALS, steps, i, acc, Read(quit, pause, log))
        invariant exit.Some? ==> EwLoop(RUN_SIGNALS, steps).0 == acc && EwLoop(RUN_SIGNALS, steps).1 == exit.value
        invariant exit.Some? ==> exit.value in {Interrupted, Raised}
        decreases |steps| - i
      {
        LoopAdvance(RUN_SIGNALS, steps, i, acc, Read(quit, pause, log));
        var out, e := EwIteration(quit, pause, log, steps[i]);
        trace, acc := trace + out, acc + out;
        exit := e;
        i := i + 1;
      }

      if exit.None? {
        LoopFinished(RUN_SIGNALS, steps, i, acc, Read(quit, pause, log));
      }
      if exit.None? && quit.IsSet() {
        outcome := Running;
      } else {
        pause.Set();
        quit.Clear();
        trace := trace + SHUTDOWN;
        outcome := if exit == Some(Interrupted) then Propagated else Finished;
      }
    }
  }

  /** A keyboard interrupt the loop reaches always ends the loop. */
  lemma {:induction false} InterruptEndsLoop(s: Signals, steps: seq<LoopStep>)
    requires Interrupt in steps
    ensures EwLoop(s, steps).1 != StepsExhausted
    decreases |steps|
  {
    if s.quit && steps[0] != Interrupt && steps[0] != Fault {
      assert Interrupt in steps[1..];
      match steps[0]
      case Pass => InterruptEndsLoop(s, steps[1..]);
      case External(signal, value) => InterruptEndsLoop(Apply(s, signal, value), steps[1..]);
    }
  }

  /**
    A keyboard interrupt escapes `run`, but only after the ordered shutdown; any other way
    of leaving the loop returns normally after the same shutdown.
  */
  lemma ShutdownBeforeEveryExit(steps: seq<LoopStep>)
    requires ControllerRun(steps).1 != Running
    ensures var (t, o) := ControllerRun(steps);
            && |t| >= |RUN_START| + |SHUTDOWN| && t[..5] == RUN_START && t[|t| - 6..] == SHUTDOWN
            && (o == Propagated <==> EwLoop(RUN_SIGNALS, steps).1 == Interrupted)
  {
  }

  /** With an interrupt among the steps, the session ends, and it ends by propagating or by returning. */
  lemma InterruptShutsDown(steps: seq<LoopStep>)
    requires Interrupt in steps
    ensures ControllerRun(steps).1 in {Propagated, Finished}
  {
    InterruptEndsLoop(RUN_SIGNALS, steps);
  }

  /**
    Every iteration calls the logging nexus's `log`: `n` plain iterations call it `n` times
    and the loop goes on.
  */
  lemma {:induction false} FlushEveryPass(s: Signals, steps: seq<LoopStep>)
    requires s.quit
    requires forall j :: 0 <= j < |steps| ==> steps[j] == Pass
    ensures var r := EwLoop(s, steps);
            && r.1 == StepsExhausted && |r.0| == |steps|
            && forall j :: 0 <= j < |r.0| ==> r.0[j] == LogFlush
    decreases |steps|
  {
    if |steps| > 0 {
      assert steps[0] == Pass;
      FlushEveryPass(s, steps[1..]);
    }
  }

  /**
    Unlike the full wrapper's loop, this one calls the logging nexus's `log` even when the
    log event is clear (whether that call then writes anything is decided inside the
    logging nexus, which is not part of this model).
  */
  lemma FlushIgnoresLogEvent()
    ensures EwLoop(Signals(true, true, false), [Pass]).0 == [LogFlush]
    ensures Wrapper.MainLoop(Signals(true, true, false), [Pass]).0 == []
  {
  }
}
