# Sign detection loop, modelled in Dafny

The program runs a binary sign / no-sign classifier on a Raspberry Pi camera
feed. At startup it loads the network, configures the camera and opens it;
either failure makes `main` return -1. It then loops: capture a frame (an empty
frame breaks the loop), run the network to get a confidence, classify it
against the strict threshold 0.7, derive the display confidence, the label and
the overlay colour, print a console line whenever the static `frame_count` is a
multiple of 30, increment it, and read one key (`q`/`Q` breaks, `s`/`S` saves
the frame, anything else, including the advertised `i`, does nothing). After
the loop it releases the camera and returns 0.

The project has four modules:

- `DecisionPolicy` (`decision.dfy`): the threshold, display confidence,
  colour and label as pure functions, and `Decide`, which combines them. The
  lemmas cover uniqueness, bounds, invertibility, monotonicity, the exact range
  of reachable (class, display confidence) pairs, and the raw-confidence label.
- `CameraSetup` (`camera_setup.dfy`): the camera's settings and lifetime as a
  class, plus `Setup`. Each of `Setup`'s arguments is a C++ comma expression
  `(flag, argc, argv, default)`, which evaluates to its last operand. So the
  camera always gets 400, 240, 50, 50, 50, 50 and 100, whatever the command
  line says.
- `DetectionLoop` (`detection_loop.dfy`): the loop as a state machine. Its
  input is a trace of iterations: a frame or an empty frame, the key
  `waitKey` returned, and the value `time(NULL)` would give. `Next` and
  `RunTrace` specify the loop on values. `Detector` is the loop as the source
  writes it: a class whose fields are the globals `class_id`,
  `display_confidence` and `color`, the static `frame_count`, the loop flag,
  and the save and console events. Its methods are proved equal to the
  specification. The lemmas cover when the loop stops, how the counter grows,
  which frames are saved, which console lines are printed, and what the
  globals hold at the end.
- `Session` (`session.dfy`): `main` from start to finish, covering the two
  startup exits, the loop, the release of the camera and the exit code.

The model follows the code as written. Three behaviours of the source are
worth knowing. Command-line flags never reach the camera, and the model
proves that. The confidence is not validated before it is compared with the
threshold, and the model takes any real. There is no explicit `release()` on
the path where the camera failed to open; the camera never opened there,
and the local camera object's destructor is not modelled. (The source's FPS
reciprocals are also unguarded against a zero duration; timing is not part
of the model.)

## Model

| member | source | states |
|---|---|---|
| `DecisionPolicy.ClassOf` | sign_dectection.cpp:89-94 | the class is 0 or 1, and it is 1 exactly when the confidence is strictly above 0.7 |
| `DecisionPolicy.ColorOf` | sign_dectection.cpp:118-123 | the colour is always green or red, and it is green (g = 255) exactly for class 1 |
| `DecisionPolicy.LabelOf` | sign_dectection.cpp:113 | the label's class name is one of `class_names`, and it is "Detected" exactly for class 1; its percentage is 100 times the raw confidence |
| `DecisionPolicy.Decide` | sign_dectection.cpp:89-123 | the decision meets the field-by-field description `DecidedFrom`: threshold class, display confidence equal to the confidence for class 1 and its complement for class 0, colour by class, "Detected"/"Not Detected" label with the raw percentage |
| `DecisionPolicy.DecisionIsUnique` | sign_dectection.cpp:89-123 | a decision meets `DecidedFrom` for a confidence if and only if it is `Decide`'s result |
| `DecisionPolicy.DisplayConfidenceBounds` | sign_dectection.cpp:96-101 | the display confidence is always at least 0.3, and it lies in [0,1] when the confidence does |
| `DecisionPolicy.ConfidenceRecovered` | sign_dectection.cpp:96-101 | the raw confidence can be recovered from the class and the display confidence |
| `DecisionPolicy.ClassMonotone` | sign_dectection.cpp:89-94 | a higher confidence never yields a lower class |
| `DecisionPolicy.DecisionRange` | sign_dectection.cpp:89-101 | the policy can produce a (class, display confidence) pair if and only if it is class 1 above 0.7 or class 0 at 0.3 or more |
| `DecisionPolicy.LabelShowsRawConfidence` | sign_dectection.cpp:96-113 | for class 0, the label's percentage equals 100 times the display confidence only when the confidence is exactly 0.5 |
| `DecisionPolicy.SampleDecisions` | sign_dectection.cpp:89-123 | 0.7 gives class 0 and red; 0.85 gives class 1, "Detected", 85%, green; 0.30 gives class 0, display 0.70, "Not Detected", 30%, red |
| `CameraSetup.Camera.constructor` | sign_dectection.cpp:42 | a new camera has no settings and is not open |
| `CameraSetup.Camera.Set` | sign_dectection.cpp:17 | setting a property overwrites that one property and leaves the camera's open state alone |
| `CameraSetup.Camera.Open` | sign_dectection.cpp:46 | open reports success exactly when the device answers, and the camera is then open |
| `CameraSetup.Camera.Release` | sign_dectection.cpp:163 | after release the camera is closed and its settings are unchanged |
| `CameraSetup.RequestedIgnoresCommandLine` | sign_dectection.cpp:16-24 | the settings requested for any argc/argv are the seven defaults, the same as for an empty command line |
| `CameraSetup.OverwritingEveryProperty` | sign_dectection.cpp:17-23 | writing the seven defaults over any earlier settings leaves exactly the defaults |
| `CameraSetup.Setup` | sign_dectection.cpp:16-24 | afterwards the camera's settings are exactly those `Requested` evaluates from the seven comma expressions, which are width 400, height 240, brightness, contrast, saturation and gain 50, fps 100, for every argc/argv; its open state is untouched |
| `DetectionLoop.ActionOf` | sign_dectection.cpp:153-160 | a key quits exactly when it is `q` or `Q` and saves exactly when it is `s` or `S` |
| `DetectionLoop.InfoKeyDoesNothing` | sign_dectection.cpp:53 | the advertised `i` key, `I`, and "no key" (-1) map to no action |
| `DetectionLoop.Next` | sign_dectection.cpp:63-160 | one iteration keeps the loop running if and only if it neither captured an empty frame nor read `q`/`Q`; an empty frame changes nothing but the loop flag; a frame increments the counter by one; one console line is added exactly when the pre-increment counter is a multiple of 30; one save is added exactly on `s`/`S` |
| `DetectionLoop.FirstStop` | sign_dectection.cpp:71-155 | the index it returns is the first iteration that stops the loop, or the trace length if none does; an iteration stops it by an empty frame (the `break` at lines 71-74) or by `q`/`Q` (the `break` at lines 154-155) |
| `DetectionLoop.RunTraceEffect` | sign_dectection.cpp:63-161 | over a trace, the loop is still running if and only if no iteration stopped it; the counter grew by the number of frames that got past the capture check, including the one on which `q` was pressed; the saves are exactly the `s`/`S` iterations before the stop, in order, each with its timestamp and decision; the console lines are exactly those of the processed frames whose counter was a multiple of 30, each with that frame's label |
| `DetectionLoop.NextKeepsLog` | sign_dectection.cpp:145-150 | one iteration preserves the log invariant: there are ceil(frame_count / 30) lines and line i was printed at counter 30·i |
| `DetectionLoop.RunTraceKeepsLog` | sign_dectection.cpp:145-150 | any run of the loop preserves that log invariant |
| `DetectionLoop.LogFromStart` | sign_dectection.cpp:145-150 | from the start, the console holds ceil(n / 30) lines for n processed frames, printed on the 1st, 31st, 61st, ... frame |
| `DetectionLoop.RunTraceLastDecision` | sign_dectection.cpp:89-123 | after a run that processed a frame, the globals `class_id`, `display_confidence` and `color` hold the decision for the last processed frame |
| `DetectionLoop.RunTraceKeepsGlobalsCoherent` | sign_dectection.cpp:12-14 | the globals are always either still zero-initialised or a decision the policy can produce; once a frame was processed they are class 1 with display above 0.7 and green, or class 0 with display at least 0.3 and red |
| `DetectionLoop.Detector.constructor` | sign_dectection.cpp:12-14 | the loop starts running with zero globals, a counter at 0, no saves and no console lines |
| `DetectionLoop.Detector.Iterate` | sign_dectection.cpp:65-160 | the loop body, as written with its branches on the globals, produces exactly the state `Next` specifies |
| `DetectionLoop.Detector.Run` | sign_dectection.cpp:63-161 | the loop ends in the state `RunTrace` specifies, after running up to and including the first stopping iteration |
| `Session.Launch` | sign_dectection.cpp:26-168 | a run fails at startup exactly when the model does not load or the camera does not open; it stops exactly when the trace contains a stopping iteration; otherwise its counter equals the number of processed frames |
| `Session.ExitCode` | sign_dectection.cpp:33-167 | the exit code is -1 exactly for a startup failure and 0 exactly after the loop breaks |
| `Session.StartupFailureRunsNothing` | sign_dectection.cpp:33-48 | either startup failure has the outcome `StartupFailed`, which carries no loop state, and returns -1 |
| `Session.SessionExit` | sign_dectection.cpp:63-167 | past startup, `main` returns 0 if and only if some iteration captures an empty frame or reads `q`/`Q`, and the console then holds one line per 30 processed frames |
| `Session.SignDetection` | sign_dectection.cpp:26-168 | `main` returns the exit code above; the camera is never constructed if the model fails to load; otherwise the camera is configured with the defaults, the loop ends in the `RunTrace` state, and the camera is released exactly when `main` returns 0 |

## Left out

- Inference: loading the network, building the input blob and the forward pass are foreign DNN calls. The confidence is an input, and a real rather than a 32-bit float, so NaN and the float rounding of the comparison with 0.7 are not modelled.
- Camera I/O: grabbing and retrieving frames and the camera id are I/O. An iteration says only whether the frame was empty and, if not, which confidence the network gave.
- Timing and FPS: wall-clock timestamps and the unguarded reciprocals are floating-point wall-clock work. The console line keeps only its label, not its FPS and millisecond figures.
- Display: the window calls and the text drawn on the frame are UI. A save event records the timestamp and the decision drawn on the saved frame, not the image.
- Float formatting: the label's percentage is the exact real 100 × confidence, without the one-decimal rounding; the other labels are not modelled.
- File output: writing the image and building the file name are file I/O. The value of `(int)time(NULL)` is supplied per iteration.
- Console messages other than the periodic line are not modelled: startup status, the capture-failure message and the save confirmation.
- `DetectionLoop.Detector.constructor`: `frame_count` is a `static int`, modelled as an unbounded natural; the model does not capture its overflow after 2^31 - 1 frames.
- `DecisionPolicy.ColorOf`: an OpenCV `Scalar` has a fourth channel, which is always 0 here and is not modelled.
- The source's loop is `while(true)`; the model observes it over a finite trace, and a trace that ends before a stop leaves the loop running, with no exit code yet.
- The unused `model_path` and the backend and target selection have no effect on the loop.
