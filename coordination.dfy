/**
  The three cooperative signals the threads share (quit/continue, pause/run, log), each a
  binary flag object with set, clear and is_set, and the observable actions a session
  performs on them and on its devices, in the order they happen.
*/
module Coordination {
  import opened Common

  /** A `threading.Event`: a flag that starts cleared. */
  class Event {
    var flag: bool

    constructor ()
      ensures !flag
    {
      flag := false;
    }

    method Set()
      modifies this
      ensures flag
    {
      flag := true;
    }

    method Clear()
      modifies this
      ensures !flag
    {
      flag := false;
    }

    function IsSet(): bool
      reads this
    {
      flag
    }
  }

  /** Which of the three shared events an action touches. */
  datatype Signal = Quit | Pause | Log

  /** The devices of a two-actuator session are named by side. */
  datatype Limb = LeftLimb | RightLimb

  /** One observable step of a session, recorded in order. */
  datatype Action =
    | SetEvent(signal: Signal)
    | ClearEvent(signal: Signal)
    | LogFlush                 // loggingnexus.log()
    | SpoolBelt(limb: Limb)    // exothread.spool_belt()
    | StopMotor(limb: Limb)    // flexdevice.stop_motor()
    | CloseDevice(limb: Limb)  // flexdevice.close()

  /** The state of the three events, as a value. */
  datatype Signals = Signals(quit: bool, pause: bool, log: bool)

  /** The value of all three events after one set or clear. */
  function Apply(s: Signals, signal: Signal, value: bool): Signals {
    match signal
    case Quit => s.(quit := value)
    case Pause => s.(pause := value)
    case Log => s.(log := value)
  }

  /** The action recorded for setting (`value`) or clearing one event. */
  function EventAction(signal: Signal, value: bool): Action {
    if value then SetEvent(signal) else ClearEvent(signal)
  }

  /** The event state after a sequence of actions, in order; device actions leave it alone. */
  function ApplyAll(s: Signals, actions: seq<Action>): Signals
    decreases |actions|
  {
    if |actions| == 0 then s
    else
      var next := match actions[0]
        case SetEvent(signal) => Apply(s, signal, true)
        case ClearEvent(signal) => Apply(s, signal, false)
        case _ => s;
      ApplyAll(next, actions[1..])
  }

  /** Performing two runs of actions one after the other is performing their concatenation. */
  lemma {:induction false} ApplyAllConcat(s: Signals, a: seq<Action>, b: seq<Action>)
    ensures ApplyAll(s, a + b) == ApplyAll(ApplyAll(s, a), b)
    decreases |a|
  {
    if |a| > 0 {
      assert (a + b)[0] == a[0] && (a + b)[1..] == a[1..] + b;
      var next := match a[0]
        case SetEvent(signal) => Apply(s, signal, true)
        case ClearEvent(signal) => Apply(s, signal, false)
        case _ => s;
      ApplyAllConcat(next, a[1..], b);
    } else {
      assert a + b == b;
    }
  }

  /** The state of three event objects, read as a value. */
  function Read(quit: Event, pause: Event, log: Event): Signals
    reads quit, pause, log
  {
    Signals(quit.flag, pause.flag, log.flag)
  }

  /** Set or clear the event named by `signal`; the other two are left alone. */
  method SetOrClear(quit: Event, pause: Event, log: Event, signal: Signal, value: bool)
    requires quit != pause && quit != log && pause != log
    modifies quit, pause, log
    ensures Read(quit, pause, log) == Apply(old(Read(quit, pause, log)), signal, value)
  {
    var e := match signal case Quit => quit case Pause => pause case Log => log;
    if value {
      e.Set();
    } else {
      e.Clear();
    }
  }

  /**
    One step of a controller's main loop, in the order the steps arrive: an iteration that
    completes, a keyboard interrupt, an exception raised by the loop body, or another
    thread (the remote-control server) setting or clearing one of the events in between.
  */
  datatype LoopStep = Pass | Interrupt | Fault | External(signal: Signal, value: bool)

  /** Why a main loop stopped: its steps ran out (it is still looping), quit was seen clear, or an exception left it. */
  datatype LoopEnd = StepsExhausted | QuitCleared | Raised | Interrupted

  /**
    What one iteration of a main loop did: the actions it recorded, the event state after
    it, and, when it left the loop, why.
  */
  datatype PassResult = PassResult(out: seq<Action>, next: Signals, exit: Option<LoopEnd>)

  /**
    How a session ends: still looping when the steps run out, returned normally, or ended by
    an exception that escaped (the trace shows whether the shutdown ran first).
  */
  datatype Outcome = Running | Finished | Propagated

  /**
    The ordered shutdown both controllers run in `finally`: pause set, quit cleared, both
    motors stopped, then both devices closed.
  */
  const SHUTDOWN: seq<Action> :=
    [SetEvent(Pause), ClearEvent(Quit),
     StopMotor(LeftLimb), StopMotor(RightLimb),
     CloseDevice(LeftLimb), CloseDevice(RightLimb)]

  /** Whatever the events were, the shutdown leaves pause set and quit cleared, and log as it was. */
  lemma ShutdownState(s: Signals)
    ensures ApplyAll(s, SHUTDOWN) == Signals(false, true, s.log)
  {
    var t := SHUTDOWN;
    assert t[1..][1..][1..][1..][1..][1..] == [];
  }
}
