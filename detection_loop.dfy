/** The per-frame loop of `main`: capture, decide, log every 30th frame, read
    a key. The camera, the network and the keyboard are inputs: one
    `Iteration` says whether the captured frame was empty, what confidence the
    network gave, which key `waitKey` returned and what `time(NULL)` said.
    `Next` and `RunTrace` specify the loop on values; `Detector` is the loop
    as the source writes it, over the globals and the static counter. */
module DetectionLoop {
  import opened DecisionPolicy

  /** What one capture yields. */
  datatype Capture = EmptyFrame | Frame(confidence: real)

  /** The inputs one iteration of the loop consumes. */
  datatype Iteration = Iteration(capture: Capture, key: int, now: int)

  /** A saved frame: the file name's timestamp and the decision drawn on it. */
  datatype SaveEvent = SaveEvent(timestamp: int, shown: Decision)

  /** A console line: the counter value it was printed at and the label. */
  datatype LogLine = LogLine(frameIndex: nat, caption: Label)

  /** The loop's state: the loop flag, the static `frame_count`, the three
      decision globals, and the saves and console lines so far. */
  datatype LoopState = LoopState(running: bool, frameCount: nat, classId: nat,
                                 displayConfidence: real, color: Bgr,
                                 saves: seq<SaveEvent>, log: seq<LogLine>)

  /** Zero-initialised globals, a counter at 0, nothing saved or printed. */
  const Init: LoopState := LoopState(true, 0, 0, 0.0, Black, [], [])

  /** The key table. */
  datatype KeyAction = Quit | Save | NoAction

  function ActionOf(key: int): (a: KeyAction)
    ensures a == Quit <==> key == 'q' as int || key == 'Q' as int
    ensures a == Save <==> key == 's' as int || key == 'S' as int
  {
    if key == 'q' as int || key == 'Q' as int then Quit
    else if key == 's' as int || key == 'S' as int then Save
    else NoAction
  }

  /** The advertised info key `i` and "no key" (-1) do nothing. */
  lemma InfoKeyDoesNothing()
    ensures ActionOf('i' as int) == NoAction && ActionOf('I' as int) == NoAction
    ensures ActionOf(-1) == NoAction
  {
  }

  /** An iteration that ends the loop: an empty frame, or `q`/`Q` after a frame. */
  predicate Stops(it: Iteration)
  {
    it.capture.EmptyFrame? || ActionOf(it.key) == Quit
  }

  /** A console line is printed when the counter, before its increment, is a multiple of 30. */
  predicate Logs(frameCount: nat)
  {
    frameCount % 30 == 0
  }

  /** One iteration of the loop body. */
  function Next(s: LoopState, it: Iteration): (r: LoopState)
    requires s.running
    ensures r.running <==> !Stops(it)
    ensures it.capture.EmptyFrame? ==> r == s.(running := false)
    ensures it.capture.Frame? ==> r.frameCount == s.frameCount + 1
    ensures |r.log| == |s.log| + (if it.capture.Frame? && Logs(s.frameCount) then 1 else 0)
    ensures |r.saves| == |s.saves| + (if it.capture.Frame? && ActionOf(it.key) == Save then 1 else 0)
  {
    match it.capture
    case EmptyFrame => s.(running := false)
    case Frame(confidence) =>
      var d := Decide(confidence);
      var decided := s.(classId := d.classId, displayConfidence := d.displayConfidence, color := d.color,
                        log := if Logs(s.frameCount) then s.log + [LogLine(s.frameCount, d.caption)] else s.log,
                        frameCount := s.frameCount + 1);
      match ActionOf(it.key)
      case Quit => decided.(running := false)
      case Save => decided.(saves := decided.saves + [SaveEvent(it.now, d)])
      case NoAction => decided
  }

  /** The loop over a finite trace; a trace that runs out while the loop is
      still running leaves it running. */
  function RunTrace(s: LoopState, trace: seq<Iteration>): LoopState
    decreases |trace|
  {
    if !s.running || trace == [] then s else RunTrace(Next(s, trace[0]), trace[1..])
  }

  /** The index of the iteration that ends the loop, or the trace's length. */
  function FirstStop(trace: seq<Iteration>): (k: nat)
    ensures k <= |trace|
    ensures forall i :: 0 <= i < k ==> !Stops(trace[i])
    ensures k < |trace| ==> Stops(trace[k])
  {
    if trace == [] then 0 else if Stops(trace[0]) then 0 else 1 + FirstStop(trace[1..])
  }

  /** How many iterations get past the capture check: all before the
      stopping one, plus the stopping one when `q` ended it. */
  function FramesProcessed(trace: seq<Iteration>): nat
  {
    var k := FirstStop(trace);
    if k < |trace| && trace[k].capture.Frame? then k + 1 else k
  }

  /** The saves a trace segment without stops produces, one per `s`/`S`. */
  function SavesOf(trace: seq<Iteration>): seq<SaveEvent>
  {
    if trace == [] then []
    else
      var it := trace[0];
      (if it.capture.Frame? && ActionOf(it.key) == Save then [SaveEvent(it.now, Decide(it.capture.confidence))] else [])
      + SavesOf(trace[1..])
  }

  /** The console lines a run of frames produces when the counter starts at
      `n`: one, carrying that frame's label, for each counter value that is a
      multiple of 30. */
  function LogsOf(n: nat, frames: seq<Iteration>): seq<LogLine>
    decreases |frames|
  {
    if frames == [] then []
    else
      var it := frames[0];
      (if it.capture.Frame? && Logs(n) then [LogLine(n, Decide(it.capture.confidence).caption)] else [])
      + LogsOf(n + 1, frames[1..])
  }

  /** The loop ends at the first empty frame or quit key and not before; the
      counter grows by one per frame past the capture check (the quitting one
      included); the saves are exactly those of the `s`/`S` presses before the
      stop, in order; the console lines are those of the processed frames
      whose counter was a multiple of 30. */
  lemma {:induction false} RunTraceEffect(s: LoopState, trace: seq<Iteration>)
    requires s.running
    ensures RunTrace(s, trace).running <==> FirstStop(trace) == |trace|
    ensures RunTrace(s, trace).frameCount == s.frameCount + FramesProcessed(trace)
    ensures RunTrace(s, trace).saves == s.saves + SavesOf(trace[..FirstStop(trace)])
    ensures RunTrace(s, trace).log == s.log + LogsOf(s.frameCount, trace[..FramesProcessed(trace)])
    decreases |trace|
  {
    if trace != [] {
      var it := trace[0];
      var s' := Next(s, it);
      if Stops(it) {
        assert RunTrace(s, trace) == s';
        assert trace[..0] == [];
        if it.capture.Frame? {
          assert trace[..1] == [it];
          assert LogsOf(s.frameCount + 1, []) == [];
        }
      } else {
        RunTraceEffect(s', trace[1..]);
        assert trace[..FirstStop(trace)][1..] == trace[1..][..FirstStop(trace[1..])];
        assert trace[..FramesProcessed(trace)][1..] == trace[1..][..FramesProcessed(trace[1..])];
        assert s'.saves == s.saves
          + (if it.capture.Frame? && ActionOf(it.key) == Save then [SaveEvent(it.now, Decide(it.capture.confidence))] else []);
      }
    }
  }

  /** The console log, from the start: line i was printed at counter value
      30 * i, i.e. on the 1st, 31st, 61st, ... frame, and no other line. */
  ghost predicate LogWellFormed(s: LoopState)
  {
    && |s.log| == (s.frameCount + 29) / 30
    && forall i :: 0 <= i < |s.log| ==> s.log[i].frameIndex == 30 * i
  }

  lemma NextKeepsLog(s: LoopState, it: Iteration)
    requires s.running && LogWellFormed(s)
    ensures LogWellFormed(Next(s, it))
  {
  }

  lemma {:induction false} RunTraceKeepsLog(s: LoopState, trace: seq<Iteration>)
    requires LogWellFormed(s)
    ensures LogWellFormed(RunTrace(s, trace))
    decreases |trace|
  {
    if s.running && trace != [] {
      NextKeepsLog(s, trace[0]);
      RunTraceKeepsLog(Next(s, trace[0]), trace[1..]);
    }
  }

  /** From the start, the log holds one line per multiple of 30 below the
      final counter. */
  lemma LogFromStart(trace: seq<Iteration>)
    ensures var r := RunTrace(Init, trace);
      |r.log| == (FramesProcessed(trace) + 29) / 30
      && forall i :: 0 <= i < |r.log| ==> r.log[i].frameIndex == 30 * i
  {
    RunTraceKeepsLog(Init, trace);
    RunTraceEffect(Init, trace);
  }

  /** Overwrite semantics: once a frame has been processed, the globals hold
      the decision for the last processed frame and nothing older. */
  lemma {:induction false} RunTraceLastDecision(s: LoopState, trace: seq<Iteration>)
    requires s.running && FramesProcessed(trace) > 0
    ensures var d := Decide(trace[FramesProcessed(trace) - 1].capture.confidence);
      var r := RunTrace(s, trace);
      r.classId == d.classId && r.displayConfidence == d.displayConfidence && r.color == d.color
    decreases |trace|
  {
    var it := trace[0];
    if Stops(it) {
      assert RunTrace(s, trace) == Next(s, it);
    } else if FramesProcessed(trace[1..]) == 0 {
      var s' := Next(s, it);
      if |trace| == 1 {
        assert RunTrace(s, trace) == RunTrace(s', []) == s';
      } else {
        assert trace[1].capture.EmptyFrame?;
        assert RunTrace(s, trace) == RunTrace(s', trace[1..]) == Next(s', trace[1]);
      }
    } else {
      RunTraceLastDecision(Next(s, it), trace[1..]);
    }
  }

  /** The globals after any number of iterations are a decision the policy can
      produce, or still the zero-initialised values. */
  ghost predicate GlobalsCoherent(s: LoopState)
  {
    || (s.frameCount == 0 && s.classId == 0 && s.displayConfidence == 0.0 && s.color == Black)
    || (exists c: real :: Decide(c).classId == s.classId && Decide(c).displayConfidence == s.displayConfidence
                          && Decide(c).color == s.color)
  }

  lemma {:induction false} RunTraceKeepsGlobalsCoherent(s: LoopState, trace: seq<Iteration>)
    requires GlobalsCoherent(s)
    ensures GlobalsCoherent(RunTrace(s, trace))
    ensures var r := RunTrace(s, trace);
      r.frameCount > 0 ==>
        || (r.classId == 1 && r.displayConfidence > Threshold && r.color == Green)
        || (r.classId == 0 && r.displayConfidence >= 1.0 - Threshold && r.color == Red)
    decreases |trace|
  {
    if s.running && trace != [] {
      var s' := Next(s, trace[0]);
      if trace[0].capture.Frame? {
        var c := trace[0].capture.confidence;
        assert Decide(c).classId == s'.classId && Decide(c).displayConfidence == s'.displayConfidence
               && Decide(c).color == s'.color;
      }
      RunTraceKeepsGlobalsCoherent(s', trace[1..]);
    } else {
      var r := RunTrace(s, trace);
      assert r == s;
      if r.frameCount > 0 {
        var c: real :| Decide(c).classId == r.classId && Decide(c).displayConfidence == r.displayConfidence
                       && Decide(c).color == r.color;
        DisplayConfidenceBounds(c);
      }
    }
  }

  /** The loop as the source writes it: the decision globals, the static
      counter, and the observable effects. */
  class Detector {
    var running: bool
    var frameCount: nat
    var classId: nat
    var displayConfidence: real
    var color: Bgr
    var saves: seq<SaveEvent>
    var log: seq<LogLine>

    function State(): LoopState
      reads this
    {
      LoopState(running, frameCount, classId, displayConfidence, color, saves, log)
    }

    constructor ()
      ensures State() == Init
    {
      running, frameCount := true, 0;
      classId, displayConfidence, color := 0, 0.0, Black;
      saves, log := [], [];
    }

    /** One pass of the loop body. */
    method Iterate(it: Iteration)
      requires running
      modifies this
      ensures State() == Next(old(State()), it)
    {
      if it.capture.EmptyFrame? {
        running := false;
        return;
      }
      var confidence := it.capture.confidence;
      if confidence > Threshold {
        classId := 1;
      } else {
        classId := 0;
      }
      if classId == 1 {
        displayConfidence := confidence;
      } else {
        displayConfidence := 1.0 - confidence;
      }
      var caption := Label(ClassNames[classId], confidence * 100.0);
      if classId == 1 {
        color := Green;
      } else {
        color := Red;
      }
      if frameCount % 30 == 0 {
        log := log + [LogLine(frameCount, caption)];
      }
      frameCount := frameCount + 1;
      var key := it.key;
      if key == 'q' as int || key == 'Q' as int {
        running := false;
      } else if key == 's' as int || key == 'S' as int {
        saves := saves + [SaveEvent(it.now, Decision(classId, confidence, displayConfidence, caption, color))];
      }
    }

    /** Runs the loop over `trace` until it breaks or the trace runs out, and
        returns how many iterations ran. */
    method Run(trace: seq<Iteration>) returns (iterations: nat)
      requires running
      modifies this
      ensures State() == RunTrace(old(State()), trace)
      ensures iterations == if FirstStop(trace) < |trace| then FirstStop(trace) + 1 else |trace|
    {
      iterations := 0;
      while iterations < |trace| && running
        invariant iterations <= |trace|
        invariant RunTrace(State(), trace[iterations..]) == RunTrace(old(State()), trace)
        invariant running ==> iterations <= FirstStop(trace)
        invariant !running ==> iterations == FirstStop(trace) + 1
        decreases |trace| - iterations
      {
        assert trace[iterations..][1..] == trace[iterations + 1..];
        Iterate(trace[iterations]);
        iterations := iterations + 1;
      }
    }
  }
}
