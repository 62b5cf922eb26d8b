/** Camera configuration at startup. Each setting passed to the camera is a
    C++ comma expression `(flag, argc, argv, default)`, which evaluates its
    operands in turn and yields the last one; the command line therefore
    never reaches the camera. */
module CameraSetup {

  /** The capture properties `Setup` writes. */
  datatype CapProp = FrameWidth | FrameHeight | Brightness | Contrast | Saturation | Gain | Fps

  /** The value every property ends up with. */
  const DefaultSettings: map<CapProp, int> :=
    map[FrameWidth := 400, FrameHeight := 240, Brightness := 50, Contrast := 50,
        Saturation := 50, Gain := 50, Fps := 100]

  /** The camera as far as configuration and lifetime go; grabbing frames is
      an input of the detection loop instead. */
  class Camera {
    var settings: map<CapProp, int>
    var isOpen: bool

    constructor ()
      ensures settings == map[] && !isOpen
    {
      settings := map[];
      isOpen := false;
    }

    /** `Camera.set(prop, value)`. */
    method Set(prop: CapProp, value: int)
      modifies this
      ensures settings == old(settings)[prop := value]
      ensures isOpen == old(isOpen)
    {
      settings := settings[prop := value];
    }

    /** `Camera.open()`; whether the device answers is an input. */
    method Open(deviceAnswers: bool) returns (ok: bool)
      modifies this
      ensures ok == deviceAnswers && isOpen == deviceAnswers
      ensures settings == old(settings)
    {
      isOpen := deviceAnswers;
      ok := isOpen;
    }

    /** `Camera.release()`. */
    method Release()
      modifies this
      ensures !isOpen && settings == old(settings)
    {
      isOpen := false;
    }
  }

  /** The comma expression `(flag, argc, argv, fallback)`: the flag, the
      argument count and the argument vector are evaluated and discarded, and
      the expression is worth its last operand. */
  function CommaValue(flag: string, argc: int, argv: seq<string>, fallback: int): int
  {
    fallback
  }

  /** The settings `Setup` hands to the camera for a given command line. */
  function Requested(argc: int, argv: seq<string>): (m: map<CapProp, int>)
  {
    map[FrameWidth := CommaValue("-w", argc, argv, 400),
        FrameHeight := CommaValue("-h", argc, argv, 240),
        Brightness := CommaValue("-br", argc, argv, 50),
        Contrast := CommaValue("-co", argc, argv, 50),
        Saturation := CommaValue("-sa", argc, argv, 50),
        Gain := CommaValue("-g", argc, argv, 50),
        Fps := CommaValue("-fps", argc, argv, 100)]
  }

  /** Whatever the command line holds, every property is requested with its
      literal default; a flag such as `-w 640` has no effect. */
  lemma RequestedIgnoresCommandLine(argc: int, argv: seq<string>)
    ensures Requested(argc, argv) == DefaultSettings
    ensures Requested(argc, argv) == Requested(0, [])
  {
  }

  /** Writes the seven capture properties, in the source's order: the camera
      ends up with exactly the settings requested for this command line, which
      are the defaults. */
  method Setup(argc: int, argv: seq<string>, camera: Camera)
    modifies camera
    ensures camera.settings == Requested(argc, argv)
    ensures camera.settings == DefaultSettings
    ensures camera.isOpen == old(camera.isOpen)
  {
    ghost var before := camera.settings;
    camera.Set(FrameWidth, CommaValue("-w", argc, argv, 400));
    camera.Set(FrameHeight, CommaValue("-h", argc, argv, 240));
    camera.Set(Brightness, CommaValue("-br", argc, argv, 50));
    camera.Set(Contrast, CommaValue("-co", argc, argv, 50));
    camera.Set(Saturation, CommaValue("-sa", argc, argv, 50));
    camera.Set(Gain, CommaValue("-g", argc, argv, 50));
    camera.Set(Fps, CommaValue("-fps", argc, argv, 100));
    OverwritingEveryProperty(before);
    RequestedIgnoresCommandLine(argc, argv);
  }

  /** Writing the seven defaults over any earlier settings leaves exactly the defaults. */
  lemma OverwritingEveryProperty(before: map<CapProp, int>)
    ensures before[FrameWidth := 400][FrameHeight := 240][Brightness := 50][Contrast := 50]
                  [Saturation := 50][Gain := 50][Fps := 100] == DefaultSettings
  {
    var after := before[FrameWidth := 400][FrameHeight := 240][Brightness := 50][Contrast := 50]
                       [Saturation := 50][Gain := 50][Fps := 100];
    forall p: CapProp
      ensures p in after && p in DefaultSettings && after[p] == DefaultSettings[p]
    {
      match p
      case FrameWidth =>
      case FrameHeight =>
      case Brightness =>
      case Contrast =>
      case Saturation =>
      case Gain =>
      case Fps =>
    }
    assert after.Keys == DefaultSettings.Keys;
  }
}
