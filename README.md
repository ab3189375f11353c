# Exoboot controller core, modelled in Dafny

This project models the control core of an ankle-exoskeleton ("exoboot") controller for a
walking study. The controller drives one Dephy actuator per ankle through the flexsea
transport. It is made of five parts:

- **The actuator thread** (`ExoClass_thread.py`, module `ExoThread`), class `ExobootThread`:
  - binds to a device and takes its motor and ankle-encoder signs from the identity tables;
  - spools the belt with the bias current;
  - runs the zeroing ("homing") procedure over three 2500-sample moving-average filters;
  - keeps a 29-key record of sensor values and gait estimates;
  - turns a torque command into a motor current (truncated toward zero), clamps it to
    [500 mA, 27000 mA] and sends it with the motor sign, or 0 mA when the safety shut-off
    flag is set;
  - appends its record to the logging nexus while the pause event is set.
- **The constants** (`constants.py`, module `Constants`):
  - the trial-type/condition table;
  - the record schema;
  - the device identifier lists with their side and sign tables;
  - the current limits and the unit conversions.
- **The two-actuator session wrapper** (`Exoboot_Wrapper.py`, module `Wrapper`):
  - orders the two devices left first;
  - derives the continuous-mode and override-current-bounds flags from the command line;
  - runs a main loop that calls `loggingnexus.log()` only while the log event is set and
    clears quit on a keyboard interrupt;
  - always ends with the ordered shutdown. Pause is set, quit cleared, both motors stopped,
    both devices closed.
- **The bench-test controller** (`ew_test.py`, module `EwTest`):
  - normalises its arguments and validates the trial pair, where an invalid pair only prints
    the usage text;
  - looks up a single device;
  - runs a loop that calls `loggingnexus.log()` on every pass without testing the log event
    itself;
  - has the same shutdown. Only its `except Exception` is handled, so a keyboard interrupt
    runs the shutdown and then escapes.
- **The transmission-ratio characterisation tool**
  (`Transmission_Ratio_Characterization/TR_characterization_MAIN.py`, module `TrCharacterization`):
  - orders up to two devices, where either may be missing;
  - latches an ankle offset, then records motor and ankle angles until it is stopped;
  - fits a cubic motor-angle curve and takes its derivative as the transmission-ratio curve.

`Coordination` holds the threading events (a class whose flag the methods set and clear), and
the ordered trace of observable actions both session controllers produce. `Filters` holds
the moving-average filter and the grace counter the zeroing loop uses. Their source
(`utils.py`) is not part of this model. They are modelled as a window of the last `size`
values, started at the initial value, whose average is the window mean, and as a step
counter whose test is "at least `after` steps taken".

The model follows the code where it differs from its comments or from the study
description:

- **Zeroing exit test.** The test at `ExoClass_thread.py:130` is
  "is-moving average above 0.95". That rewards *motion*, although the doc comment at line 91
  asks for a subject who stands still. The model keeps `> 0.95` as written:
  - `StillSubjectNeverStops` proves that a perfectly still subject never ends the procedure;
  - `StopMeansMostlyMoving` proves that ending it needs more than 2375 moving samples among
    the last 2500.
- **Safety shut-off flag.** The thermal check at lines 226–231 only prints, because the flag
  assignments are commented out. `ThermalSafetyChecker` and `PostIterate` therefore leave
  the flag unchanged. `Iterate` still models both branches of line 317.
- **PREF conditions.** The trial table lists `SLIDER` and `BTN` for PREF. The wrapper's
  continuous mode tests `SLIDER` and `DIAL` (`ContinuousConditionsDifferFromTable`).
- **Wrapper thread construction.** The calls at `Exoboot_Wrapper.py:119-120` pass more
  positional arguments than `ExobootThread.__init__` (`ExoClass_thread.py:25`) accepts, so
  as written they raise `TypeError`. Their sixth and seventh positions would also bind the
  wrapper's quit event to the `pause_event` parameter and its pause event to `quit_event`.
  The model's reading is an interpretation of the evident intent: the thread is constructed
  with the given side, device, start stamp and name, pause bound to the pause event and
  quit to the quit event.
- **Failed device ordering.** If `get_active_ports` raises in the wrapper, the `finally`
  block reaches events and threads that do not exist yet. The model records this as an
  escaping error with an empty trace.
- **Bench-test constructor and threads.** The bench test:
  - passes `log_event` at line 71, which `__init__` does not accept;
  - reads `exothread_right` at lines 76, 179, 186, 213 and 216, which it never assigns.

  The model covers the part of the constructor it names, and takes `run` as driving a left
  and a right actuator, as `run` itself does.
- **Undefined name in the condition check.** Line 150 formats an undefined `trial_cond`. The
  resulting `NameError` is swallowed by the same bare `except` as the intended `Exception`, so
  the outcome is the same: the usage text is printed.
- **Characterisation without data.** In the characterisation tool:
  - a pass before `start` has latched an offset raises inside the loop's bare `except`, so it
    is counted and records nothing;
  - an empty angle vector makes the cubic fit raise, and the model reports this as `FitFailed`.

## Model

| member | source | states |
|---|---|---|
| Common.Upper | ew_test.py:39-40 | ASCII upper-casing keeps the length and upper-cases each letter, leaving other characters alone |
| Common.UpperIdempotent | Exoboot_Wrapper.py:217-218 | Upper-casing an upper-cased trial type or condition changes nothing |
| Common.UpperOfUpperCaseString | constants.py:4-9 | A string with no lower-case letter, such as every table key, is its own upper-case form |
| Constants.TrialTypesAreTheKeys | constants.py:4-9 | The trial table has exactly the five types VICKREY, VAS, JND, PREF and ACCLIMATION |
| Constants.OpenAndListedTrialTypes | constants.py:4-9 | Exactly VAS and ACCLIMATION have an empty condition list |
| Constants.FieldKeys | constants.py:27-34 | The record's key set is exactly the members of the thread field list, and it has one key per field, 29 in all |
| Constants.ExothreadFieldsDistinct | constants.py:27-34 | The 2 + 8 + 19 = 29 field names are pairwise distinct |
| Constants.DeviceIdListsDisjoint | constants.py:80-81 | No device identifier is both a right and a left exo |
| Constants.IdTablesTotalOnKnownIds | constants.py:90-92 | Each of the three tables is defined exactly on the four listed identifiers |
| Constants.SideOfKnownIds | constants.py:90 | Right identifiers map to "right", left ones to "left", and every side is one of the two |
| Constants.SignsOfKnownIds | constants.py:83-92 | Ankle-encoder sign is -1 for right and +1 for left; motor sign is -1 for both |
| Constants.CurrentBoundsOrdered | ExoClass_thread.py:314 | The clamp's bounds are ordered: 0 < 500 mA bias < 27000 mA maximum |
| Coordination.Event.constructor | Exoboot_Wrapper.py:110-112 | A new event starts cleared |
| Coordination.Event.Set | Exoboot_Wrapper.py:113 | After set the flag is raised |
| Coordination.Event.Clear | Exoboot_Wrapper.py:114-115 | After clear the flag is lowered |
| Coordination.SetOrClear | Exoboot_Wrapper.py:183-185 | Setting or clearing one of three distinct events changes that event and leaves the other two as they were |
| Coordination.ApplyAllConcat | Exoboot_Wrapper.py:193-197 | Running two action sequences one after the other has the effect of running their concatenation |
| Coordination.ShutdownState | Exoboot_Wrapper.py:193-204 | The ordered shutdown leaves pause set and quit cleared, whatever the events were, and keeps log |
| Filters.Window | ExoClass_thread.py:109-111 | A filter window always holds exactly `size` values |
| Filters.WindowOfLongHistory | ExoClass_thread.py:109-111 | Once at least `size` values have been fed in, the window is exactly the last `size` of them |
| Filters.WindowValues | ExoClass_thread.py:109-111 | Every window value is the initial value or one of the values fed in |
| Filters.MovingAverageFilter.constructor | ExoClass_thread.py:109-111 | A new filter holds `size` copies of its initial value |
| Filters.MovingAverageFilter.Update | ExoClass_thread.py:123-127 | Update drops the oldest value and appends the new one |
| Filters.TrueAfter.constructor | ExoClass_thread.py:108 | The grace counter starts at zero steps with its threshold |
| Filters.TrueAfter.Step | ExoClass_thread.py:136 | A step increments the counter by one |
| ExoThread.TruncateTowardZero | ExoClass_thread.py:201 | `int()` of a real keeps its sign and drops less than one in magnitude, truncating toward zero |
| ExoThread.TorqueToCurrent | ExoClass_thread.py:194-201 | The current is the torque over (ratio · efficiency · Kt) truncated toward zero: same sign, within one mA below in magnitude |
| ExoThread.TruncateMonotone | ExoClass_thread.py:201 | Truncation toward zero is monotone |
| ExoThread.TorqueToCurrentMonotone | ExoClass_thread.py:194-201 | For a positive ratio, more torque never asks for less current |
| ExoThread.TorqueToCurrentExample | ExoClass_thread.py:194-201 | 2 N·m at ratio 10 asks for 1522 mA, which the clamp passes unchanged |
| ExoThread.Vet | ExoClass_thread.py:314 | The vetted current lies in [500, 27000]; it equals the command inside that range and the nearer bound outside it |
| ExoThread.VetIdempotent | ExoClass_thread.py:314 | Clamping a clamped current changes nothing |
| ExoThread.IssuedMagnitudeInBounds | ExoClass_thread.py:314-322 | A current sent with a ±1 motor sign has magnitude between the bias and the maximum |
| ExoThread.IsMovingOnRawUnits | ExoClass_thread.py:119-123 | The is-moving test is motor velocity beyond ±100 or raw ankle velocity beyond ±10 |
| ExoThread.FirstStop | ExoClass_thread.py:114-133 | The result is the first sample that passes the exit test, or none exactly when no sample does |
| ExoThread.StopMeansMostlyMoving | ExoClass_thread.py:129-130 | Passing the exit test needs more than 2375 moving samples in the last 2500 |
| ExoThread.StillSubjectNeverStops | ExoClass_thread.py:123-133 | If no sample is moving, the zeroing loop never ends |
| ExoThread.NoStopWhileStill | ExoClass_thread.py:123-130 | While there has been no motion, the is-moving average is 0 |
| ExoThread.SteadyWindowOffset | ExoClass_thread.py:126-132 | If the motor angle was constant over the last 2500 samples, the latched motor offset is that angle |
| ExoThread.FeedSample | ExoClass_thread.py:116-127 | One pass feeds sample i into the three filters, which then hold the windows of samples 0..i |
| ExoThread.ExitTest | ExoClass_thread.py:130 | The loop's test after sample i is exactly the exit predicate on the sample history |
| ExoThread.LatchedOffsets | ExoClass_thread.py:131-132 | The latched offsets are the motor and ankle window averages after sample i |
| ExoThread.ZeroingIteration | ExoClass_thread.py:114-136 | One pass keeps the zeroing invariant: either nothing has stopped yet, or sample i is the first stop and the offsets are its averages |
| ExoThread.RunZeroingFilters | ExoClass_thread.py:105-136 | Over the sample stream, the loop stops at the first sample that passes the exit test, and the offsets are that sample's window averages |
| ExoThread.LoggingNexus.Append | ExoClass_thread.py:339-340 | Appending adds the thread's name and record at the end of the nexus |
| ExoThread.WrittenKeysInSchema | ExoClass_thread.py:67-69 | Every key the thread writes belongs to the record schema, so writes never add keys |
| ExoThread.SensorValuesKeys | ExoClass_thread.py:152-192 | `read_sensors` writes exactly its 18 keys |
| ExoThread.EstimateValuesKeys | ExoClass_thread.py:249-254 | `log_state_estimate` writes exactly its 5 keys |
| ExoThread.EstimateValuesMerge | ExoClass_thread.py:249-254 | The five assignments in order have the same effect as overriding the record with the estimate values |
| ExoThread.ExobootThread.constructor | ExoClass_thread.py:25-73 | Signs come from the identity tables. Offsets, peak torque and current time start at 0, with stride period 1.0 and not in swing, HS at the start time and the flag cleared. The record holds all 29 keys with no value, and there is no nexus and no command yet |
| ExoThread.ExobootThread.SpoolBelt | ExoClass_thread.py:81-85 | Sends the signed bias current, and nothing else |
| ExoThread.ExobootThread.OnPrePause | ExoClass_thread.py:277-284 | Sends the signed bias current when pausing |
| ExoThread.ExobootThread.ZeroProcedure | ExoClass_thread.py:87-150 | Holds 1000 mA with the motor sign. On the first sample passing the exit test it latches the two window averages as offsets and sends 0 mA twice; if no sample passes, nothing is latched |
| ExoThread.ExobootThread.SetStateEstimate | ExoClass_thread.py:238-247 | Overwrites exactly HS, stride period, peak torque and in-swing |
| ExoThread.ExobootThread.LogStateEstimate | ExoClass_thread.py:249-254 | Copies the five estimate values into the record, keeps the other keys and keeps the schema |
| ExoThread.ExobootThread.ReadSensors | ExoClass_thread.py:152-192 | Writes the converted readings, the looked-up ratio and the delivered ankle torque, leaving every other key and the schema alone |
| ExoThread.ExobootThread.PreIterate | ExoClass_thread.py:286-295 | Writes the time since the start stamp, then the sensor values, then the estimate values, in that order of override |
| ExoThread.ExobootThread.Iterate | ExoClass_thread.py:297-322 | Sets the phase time from HS and records the profile torque and its current. With the shut-off flag it sends 0 mA and clears quit; without it, it sends the signed clamped current and leaves quit alone |
| ExoThread.ExobootThread.PostIterate | ExoClass_thread.py:324-340 | Records frequency and winding temperature and never raises the shut-off flag. The record is appended to the nexus exactly when a nexus is attached and pause is set |
| ExoThread.ExobootThread.ThermalSafetyChecker | ExoClass_thread.py:203-231 | Records the modelled winding temperature; the limit tests leave the shut-off flag unchanged |
| ExoThread.NewExobootThread | ExoClass_thread.py:36-37 | Binding fails (KeyError) exactly for an unknown identifier; otherwise the motor sign is -1 and the ankle sign follows the side |
| Wrapper.OrderBySide | Exoboot_Wrapper.py:85-91 | Ordering succeeds exactly when the first side is left or right. It keeps each side with its device and, for one device per side, puts left first |
| Wrapper.OrderBySideStable | Exoboot_Wrapper.py:85-91 | Ordering an already ordered left/right pair again leaves it unchanged |
| Wrapper.GetActivePorts | Exoboot_Wrapper.py:64-91 | Succeeds exactly when both devices open with known identifiers, each with its own table side. An open failure is reported as such, and an invalid side never happens |
| Wrapper.OneOfEachSideLeftFirst | Exoboot_Wrapper.py:85-89 | With one left and one right device, in either port order, the left device comes first |
| Wrapper.SameSideDevicesKept | Exoboot_Wrapper.py:86-89 | Two devices of the same side are accepted with both labelled that side |
| Wrapper.FirstUnknownReportedFirst | Exoboot_Wrapper.py:79-80 | An unknown first identifier fails the side lookup before anything else |
| Wrapper.ParseArgs | Exoboot_Wrapper.py:208-226 | Exactly five arguments are accepted. Type and condition are stored upper-cased and are their own upper case, backup follows its five spellings, and the two mode flags are their table tests. The two modes are never both on, and the current-bounds override only arises for a VICKREY condition the trial table lists |
| Wrapper.ModesIgnoreCase | Exoboot_Wrapper.py:216-226 | The mode flags depend only on the upper-cased type and condition |
| Wrapper.ParseArgsNormalised | Exoboot_Wrapper.py:216-218 | Parsing already upper-cased arguments gives the same settings |
| Wrapper.ParseArgsExample | Exoboot_Wrapper.py:216-223 | `S01 pref dial d YES` is PREF in continuous mode, and "YES" does not turn backup on |
| Wrapper.ContinuousConditionsDifferFromTable | Exoboot_Wrapper.py:223 | PREF/DIAL is continuous but not in the table; PREF/BTN is in the table but not continuous; the override conditions are all listed for VICKREY |
| Wrapper.WrapperPass | Exoboot_Wrapper.py:146-185 | A pass leaves the loop exactly on an exception, and then records nothing. A completed pass calls log exactly when the log event is set and changes no event; an interrupt records clearing quit and leaves quit cleared with pause and log untouched; another thread's change is recorded. Replaying a pass's actions gives its new event state |
| Wrapper.MainLoop | Exoboot_Wrapper.py:145-185 | The loop never lets an interrupt escape; it is still looping only if quit is still set. Replaying its recorded actions on the starting events leaves quit cleared when it saw quit cleared, and set when the steps ran out |
| Wrapper.WrapperIteration | Exoboot_Wrapper.py:146-185 | The imperative pass over the three events does what the pass function says |
| Wrapper.Run | Exoboot_Wrapper.py:98-204 | The session's trace and outcome are the initialisation, then the loop, then the shutdown, ended normally. A failed device ordering escapes with an empty trace |
| Wrapper.InterruptEndsLoop | Exoboot_Wrapper.py:183-185 | A keyboard interrupt the loop reaches always ends it |
| Wrapper.InterruptShutsDown | Exoboot_Wrapper.py:183-204 | With devices ordered, an interrupt leads to the shutdown and a normal return |
| Wrapper.RunningLoopSawNoStop | Exoboot_Wrapper.py:145-187 | A loop still running has seen neither an interrupt nor an exception |
| Wrapper.FinishedTraceShape | Exoboot_Wrapper.py:110-204 | A finished session's trace starts with the event initialisation and ends with the six shutdown actions |
| Wrapper.NoFlushWithoutLogEvent | Exoboot_Wrapper.py:176-178 | With log cleared and never set by another thread, the loop never flushes |
| EwTest.Normalise | ew_test.py:37-43 | Keeps subject and description, upper-cases type and condition (which are then their own upper case), and turns backup on for its five spellings |
| EwTest.EntryArgs | ew_test.py:220-229 | Exactly five arguments are accepted, and they are normalised in order. It accepts the same argument vectors as the wrapper's entry point and stores the same subject, type, condition, description and backup flag |
| EwTest.NormaliseIdempotent | ew_test.py:39-40 | Normalising normalised settings again changes nothing |
| EwTest.FilePrefix | ew_test.py:43 | The prefix is the subject, type, condition and description in that order, each pair separated by one underscore |
| EwTest.ValidTrialTable | ew_test.py:143-150 | A pair is valid exactly when its type accepts any condition or the pair is listed in the table |
| EwTest.InitSubject | ew_test.py:132-156 | The usage text is printed exactly for an invalid pair, and the file prefix is set either way |
| EwTest.LowerCaseTrialAccepted | ew_test.py:143-150 | `vickrey wne` is accepted once normalised |
| EwTest.PrefDialRejected | ew_test.py:143-154 | `pref dial` prints the usage text, although the wrapper treats it as continuous mode |
| EwTest.OpenTypesAcceptAnything | ew_test.py:148-149 | VAS and ACCLIMATION accept every condition |
| EwTest.GetActivePortSingle | ew_test.py:117-130 | Succeeds exactly for an opened device with a known identifier, with its table side; otherwise reports the open failure or the unknown identifier |
| EwTest.SinglePortsAgreeWithPair | ew_test.py:87-130 | When both single lookups succeed, the pair lookup succeeds with the same two (side, device) pairs |
| EwTest.PairNeedsBothSingles | ew_test.py:87-130 | If either single lookup fails, the pair lookup fails |
| EwTest.InitialisationsAgree | ew_test.py:45-51 | The bench test's event initialisation and the wrapper's reach the same state from any state: quit set, pause and log cleared |
| EwTest.RunStartState | ew_test.py:172-186 | Starting a run leaves all three events set |
| EwTest.EwPass | ew_test.py:190-198 | A pass leaves the loop exactly on an interrupt or an exception, and records nothing then. A pass calls log exactly when it completes, without testing the log event, and changes no event; another thread's change is recorded. Replaying a pass's actions gives its new event state |
| EwTest.EwLoop | ew_test.py:190-202 | The loop is still running only if quit is still set. Replaying its recorded actions on the starting events leaves quit cleared when it saw quit cleared, and set when the steps ran out |
| EwTest.EwIteration | ew_test.py:191-196 | The imperative pass over the three events does what the pass function says |
| EwTest.MainController.constructor | ew_test.py:32-56 | Normalises the settings and initialises the events to quit set, pause and log cleared. Then it runs the subject check |
| EwTest.MainController.Run | ew_test.py:164-217 | The trace and outcome are the run start, the loop, then the shutdown and the escape or return. After any end, pause is set and quit is cleared |
| EwTest.InterruptEndsLoop | ew_test.py:190-202 | A keyboard interrupt the loop reaches always ends it |
| EwTest.ShutdownBeforeEveryExit | ew_test.py:172-217 | Every ended run starts with the run start and ends with the six shutdown actions; it escapes exactly when interrupted |
| EwTest.InterruptShutsDown | ew_test.py:190-217 | An interrupt leads to the shutdown, then to an escape or a normal return |
| EwTest.FlushEveryPass | ew_test.py:191-193 | Over completed passes, the loop calls log once per pass and keeps running |
| EwTest.FlushIgnoresLogEvent | ew_test.py:192-193 | With log cleared, the bench test still calls log while the wrapper does not |
| TrCharacterization.Probe | Transmission_Ratio_Characterization/TR_characterization_MAIN.py:19-37 | A port gives a device exactly when it opens with a known identifier, with the table side |
| TrCharacterization.GetActivePorts | Transmission_Ratio_Characterization/TR_characterization_MAIN.py:14-49 | Fails (quits) exactly when neither port gives a device. Otherwise the two slots are the two probes, possibly swapped, and left is first or right is second |
| TrCharacterization.InvalidSidesUnreachable | Transmission_Ratio_Characterization/TR_characterization_MAIN.py:43-49 | With at least one device and table sides, one of the two ordering tests always holds |
| TrCharacterization.SingleDeviceInItsSlot | Transmission_Ratio_Characterization/TR_characterization_MAIN.py:43-47 | A lone device lands in its own side's slot, whichever port it is on |
| TrCharacterization.OneOfEachSideLeftFirst | Transmission_Ratio_Characterization/TR_characterization_MAIN.py:43-47 | With one device per side, the left device is in the left slot |
| TrCharacterization.TwoRightDevicesKept | Transmission_Ratio_Characterization/TR_characterization_MAIN.py:44-45 | Two right devices are kept in port order, the first in the left slot |
| TrCharacterization.TwoLeftDevicesKept | Transmission_Ratio_Characterization/TR_characterization_MAIN.py:44-45 | Two left devices are kept in port order |
| TrCharacterization.CharacterizationOrder | Transmission_Ratio_Characterization/TR_characterization_MAIN.py:156-172 | The devices characterised are exactly the present slots, left slot first |
| TrCharacterization.SomethingToCharacterize | Transmission_Ratio_Characterization/TR_characterization_MAIN.py:39-41 | After a successful ordering at least one known device is characterised |
| TrCharacterization.PolyDer | Transmission_Ratio_Characterization/TR_characterization_MAIN.py:117 | The derivative has one coefficient fewer |
| TrCharacterization.CubicDerivative | Transmission_Ratio_Characterization/TR_characterization_MAIN.py:116-117 | The derivative of ax³+bx²+cx+d is 3ax²+2bx+c |
| TrCharacterization.PolyDerIsSlope | Transmission_Ratio_Characterization/TR_characterization_MAIN.py:113-117 | The transmission-ratio curve is the slope of the motor-angle curve: the change over h is h times the derivative plus an h² term |
| TrCharacterization.RecordedAngles | Transmission_Ratio_Characterization/TR_characterization_MAIN.py:87-111 | With an offset, the loop appends exactly the signed motor angles and offset ankle angles of the full samples before the stop, and counts every read that succeeded |
| TrCharacterization.VectorsInStep | Transmission_Ratio_Characterization/TR_characterization_MAIN.py:87-111 | The two angle vectors stay of equal length, never longer than the iteration count |
| TrCharacterization.NoOffsetRecordsNothing | Transmission_Ratio_Characterization/TR_characterization_MAIN.py:95 | Without a latched offset nothing is recorded |
| TrCharacterization.KilledIffStopRequested | Transmission_Ratio_Characterization/TR_characterization_MAIN.py:87-150 | The loop ends with kill set exactly when a stop was requested |
| TrCharacterization.OffsetSampleReadsZero | Transmission_Ratio_Characterization/TR_characterization_MAIN.py:95-142 | A sample at the latched position records ankle angle 0 |
| TrCharacterization.TRCharacterizer.constructor | Transmission_Ratio_Characterization/TR_characterization_MAIN.py:52-67 | Signs come from the tables, kill is false, and there is no offset yet, no data and no command |
| TrCharacterization.TRCharacterizer.Start | Transmission_Ratio_Characterization/TR_characterization_MAIN.py:137-147 | Sends the signed bias current and latches the signed ankle angle as the offset |
| TrCharacterization.TRCharacterizer.Stop | Transmission_Ratio_Characterization/TR_characterization_MAIN.py:149-151 | Sets kill |
| TrCharacterization.TRCharacterizer.Collect | Transmission_Ratio_Characterization/TR_characterization_MAIN.py:69-135 | The vectors and count are those of the loop. After a stop with data it stores the fit, its derivative and the coefficient rows and sends 0 mA; otherwise only the bias current is sent and nothing is stored |
| TrCharacterization.NewCharacterizer | Transmission_Ratio_Characterization/TR_characterization_MAIN.py:57-58 | Construction fails (KeyError) exactly for an unknown identifier; otherwise the motor sign is -1 and the ankle sign follows the side |

## Left out

- Device I/O (flexsea `Device`, streaming, gains, `read`, `command_motor_current`): the devices are identifiers, reads are input frames and commands are recorded in a `commands` sequence.
- Threads, `time.sleep`, `perf_counter` and the soft real-time loop: times are parameters, and a main loop is a sequence of steps such as a completed pass, an interrupt, an exception or another thread's event change.
- Floating point: Python floats are modelled as exact reals, so rounding in the unit conversions, the averages and the torque-to-current quotient is not captured.
- `ThermalModel`, `TransmissionRatioGenerator`, `AssistanceGenerator` and the torque profile: these are not part of this model. The winding temperature and the ratio are parameters, and the profile is a function parameter.
- `np.polyfit`: the fitted coefficients are a parameter of `Collect`. Only the failure on empty vectors and the derivative (`np.polyder`) are modelled.
- CSV files (offsets, full data, coefficients): the coefficient rows are kept as a field; the file writes are not modelled.
- `LoggingNexus` and `FilingCabinet`: the nexus is reduced to its appended records, and log flushes are actions in the trace. Backup loading is not modelled.
- `LoggingNexus.log`'s own test of the log event: not part of this model. A `LogFlush` action records that the controller called `log`, not that anything was written.
- The gait-state estimator, the remote-control server and the curses HUD: they are not part of this model. Their only effect kept is event changes arriving between passes.
- `BaseThread`'s run loop and `on_pre_run`: the hooks are modelled one by one, not the dispatch between them.
- `Validator` (`Exoboot_Wrapper.py:213`): not part of this model, so argument validation beyond the count is not modelled.
- The IP lookup through a UDP socket and the console output: not modelled.
- `str.upper()` beyond ASCII: `Upper` changes only `a`–`z`.
- ExoThread.ExobootThread.constructor: requires a known identifier. The KeyError for an unknown one is modelled by `NewExobootThread`.
- TrCharacterization.TRCharacterizer.constructor: requires a known identifier. The KeyError for an unknown one is modelled by `NewCharacterizer`.
- ExoThread.ExobootThread.Iterate: requires the recorded ratio to be a nonzero number. A missing or zero ratio raises in the source, and that error path is not modelled.
- ExoThread.ExobootThread.GetVal: requires the key to be in the record. A missing key raises KeyError, which never happens for the schema's keys.
- ExoThread.ExobootThread.ZeroProcedure: the samples are a finite sequence. A loop that never passes the test runs forever in the source; in the model it ends with the samples still holding current.
