/** `main` from start to finish: load the network, configure and open the
    camera, run the detection loop, release the camera. Whether the network
    loads and whether the camera answers are inputs. */
module Session {
  import opened CameraSetup
  import opened DetectionLoop

  /** How a run ends: before the loop, by a `break`, or not yet within the
      observed trace. */
  datatype Outcome = StartupFailed | Stopped(state: LoopState) | StillRunning(state: LoopState)

  /** What the process returns, if it has returned. */
  datatype Exit = Returned(code: int) | Looping

  /** The run of `main` on the given startup results and loop inputs. */
  function Launch(modelLoaded: bool, cameraOpened: bool, trace: seq<Iteration>): (o: Outcome)
    ensures o.StartupFailed? <==> !modelLoaded || !cameraOpened
    ensures o.Stopped? <==> modelLoaded && cameraOpened && FirstStop(trace) < |trace|
    ensures !o.StartupFailed? ==> o.state.frameCount == FramesProcessed(trace)
  {
    if !modelLoaded || !cameraOpened then StartupFailed
    else
      RunTraceEffect(Init, trace);
      var r := RunTrace(Init, trace);
      if r.running then StillRunning(r) else Stopped(r)
  }

  /** -1 for either startup failure, 0 after the loop breaks. */
  function ExitCode(o: Outcome): (e: Exit)
    ensures e == Returned(-1) <==> o.StartupFailed?
    ensures e == Returned(0) <==> o.Stopped?
    ensures e == Looping <==> o.StillRunning?
  {
    match o
    case StartupFailed => Returned(-1)
    case Stopped(_) => Returned(0)
    case StillRunning(_) => Looping
  }

  /** A failed startup returns -1 and runs no iteration: its outcome carries
      no loop state, whatever the trace would have held. */
  lemma {:induction false} StartupFailureRunsNothing(modelLoaded: bool, cameraOpened: bool, trace: seq<Iteration>)
    requires !modelLoaded || !cameraOpened
    ensures Launch(modelLoaded, cameraOpened, trace) == StartupFailed
    ensures ExitCode(Launch(modelLoaded, cameraOpened, trace)) == Returned(-1)
  {
  }

  /** A session that gets past startup ends with 0 exactly when the trace holds
      an empty frame or a quit key, having printed a line for every 30th
      processed frame starting with the first. */
  lemma {:induction false} SessionExit(trace: seq<Iteration>)
    ensures ExitCode(Launch(true, true, trace)) == Returned(0)
        <==> exists i :: 0 <= i < |trace| && Stops(trace[i])
    ensures var r := Launch(true, true, trace).state;
      |r.log| == (FramesProcessed(trace) + 29) / 30
  {
    LogFromStart(trace);
    if exists i :: 0 <= i < |trace| && Stops(trace[i]) {
      var i :| 0 <= i < |trace| && Stops(trace[i]);
      assert FirstStop(trace) <= i;
    }
  }

  /** `main`: returns -1 when the network fails to load (before the camera
      exists) or when the camera does not open (after `Setup` configured it);
      otherwise loops and, once the loop breaks, releases the camera and
      returns 0. */
  method SignDetection(modelLoaded: bool, cameraAnswers: bool, argc: int, argv: seq<string>,
                       trace: seq<Iteration>)
    returns (exit: Exit, camera: Camera?, detector: Detector?)
    ensures exit == ExitCode(Launch(modelLoaded, cameraAnswers, trace))
    ensures !modelLoaded ==> camera == null && detector == null
    ensures modelLoaded ==> camera != null && fresh(camera) && camera.settings == DefaultSettings
    ensures modelLoaded && !cameraAnswers ==> camera != null && !camera.isOpen && detector == null
    ensures modelLoaded && cameraAnswers ==>
      detector != null && fresh(detector) && detector.State() == RunTrace(Init, trace)
    ensures camera != null ==> (camera.isOpen <==> exit == Looping)
  {
    if !modelLoaded {
      return Returned(-1), null, null;
    }
    camera := new Camera();
    Setup(argc, argv, camera);
    var connected := camera.Open(cameraAnswers);
    if !connected {
      return Returned(-1), camera, null;
    }
    detector := new Detector();
    var _ := detector.Run(trace);
    if detector.running {
      exit := Looping;
      return;
    }
    camera.Release();
    exit := Returned(0);
  }
}
