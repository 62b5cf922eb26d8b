/** The decision policy of the sign detector: the model's scalar confidence is
    turned into a class, a display confidence, a label and an overlay colour.
    Confidences are reals; the single-precision rounding of the comparison
    against the literal 0.7 is not modelled. */
module DecisionPolicy {

  /** The cut-off above which a frame is classified as showing a sign. */
  const Threshold: real := 0.7

  /** An OpenCV colour, in blue-green-red order (the fourth channel is always 0). */
  datatype Bgr = Bgr(b: int, g: int, r: int)

  const Green: Bgr := Bgr(0, 255, 0)
  const Red: Bgr := Bgr(0, 0, 255)
  /** What a default-constructed colour holds before the first frame. */
  const Black: Bgr := Bgr(0, 0, 0)

  /** `class_names`, indexed by class id. */
  const ClassNames: seq<string> := ["Not Detected", "Detected"]

  /** The main overlay label "<class name>: <percent>%"; the printf-style
      rounding of the percentage to one decimal is not modelled. */
  datatype Label = Label(className: string, percent: real)

  /** Everything one iteration derives from a confidence. */
  datatype Decision = Decision(classId: nat, confidence: real, displayConfidence: real,
                               caption: Label, color: Bgr)

  /** Strict threshold: class 1 exactly when the confidence exceeds 0.7. */
  function ClassOf(confidence: real): (id: nat)
    ensures id < |ClassNames|
    ensures id == 1 <==> confidence > Threshold
  {
    if confidence > Threshold then 1 else 0
  }

  /** The confidence re-expressed relative to the winning class. */
  function DisplayConfidence(classId: nat, confidence: real): real
  {
    if classId == 1 then confidence else 1.0 - confidence
  }

  /** Green for a detected sign, red otherwise. */
  function ColorOf(classId: nat): (c: Bgr)
    ensures c == Green || c == Red
    ensures c.g == 255 <==> classId == 1
  {
    if classId == 1 then Green else Red
  }

  /** The label names the class but shows the raw confidence, even for class 0. */
  function LabelOf(classId: nat, confidence: real): (l: Label)
    requires classId < |ClassNames|
    ensures l.className in ClassNames
    ensures l.className == "Detected" <==> classId == 1
    ensures l.percent == 100.0 * confidence
  {
    Label(ClassNames[classId], confidence * 100.0)
  }

  /** An independent description of a decision for `confidence`: what every
      field must be, stated field by field. */
  ghost predicate DecidedFrom(d: Decision, confidence: real)
  {
    && d.confidence == confidence
    && (d.classId == 1 || d.classId == 0)
    && (d.classId == 1 <==> confidence > Threshold)
    && (d.classId == 1 ==> d.displayConfidence == confidence)
    && (d.classId == 0 ==> d.displayConfidence == 1.0 - confidence)
    && (d.classId == 1 ==> d.color == Green)
    && (d.classId == 0 ==> d.color == Red)
    && d.caption == Label(if d.classId == 1 then "Detected" else "Not Detected", 100.0 * confidence)
  }

  /** The whole decision for one frame, as the loop body computes it. */
  function Decide(confidence: real): (d: Decision)
    ensures DecidedFrom(d, confidence)
  {
    var id := ClassOf(confidence);
    Decision(id, confidence, DisplayConfidence(id, confidence), LabelOf(id, confidence), ColorOf(id))
  }

  /** `DecidedFrom` pins the decision down completely: `Decide` is the only one. */
  lemma DecisionIsUnique(d: Decision, confidence: real)
    ensures DecidedFrom(d, confidence) <==> d == Decide(confidence)
  {
  }

  /** A confidence in [0,1] gives a display confidence in [0,1]; whatever the
      confidence, the display confidence is at least 1 - 0.7. */
  lemma DisplayConfidenceBounds(confidence: real)
    ensures Decide(confidence).displayConfidence >= 1.0 - Threshold
    ensures 0.0 <= confidence <= 1.0 ==> 0.0 <= Decide(confidence).displayConfidence <= 1.0
  {
  }

  /** The raw confidence is recovered from the class and the display confidence. */
  lemma ConfidenceRecovered(confidence: real)
    ensures var d := Decide(confidence);
      confidence == if d.classId == 1 then d.displayConfidence else 1.0 - d.displayConfidence
  {
  }

  /** A higher confidence never gives a lower class. */
  lemma ClassMonotone(c1: real, c2: real)
    requires c1 <= c2
    ensures ClassOf(c1) <= ClassOf(c2)
  {
  }

  /** The (class, display confidence) pairs the policy can produce are exactly
      class 1 with a display confidence above 0.7 and class 0 with one of at
      least 0.3. */
  lemma {:induction false} DecisionRange(classId: nat, dc: real)
    ensures (exists c: real :: Decide(c).classId == classId && Decide(c).displayConfidence == dc)
        <==> (classId == 1 && dc > Threshold) || (classId == 0 && dc >= 1.0 - Threshold)
  {
    if classId == 1 && dc > Threshold {
      assert Decide(dc).classId == classId && Decide(dc).displayConfidence == dc;
    } else if classId == 0 && dc >= 1.0 - Threshold {
      assert Decide(1.0 - dc).classId == classId && Decide(1.0 - dc).displayConfidence == dc;
    }
  }

  /** For class 0 the label's percentage and the display confidence disagree
      unless the confidence is exactly one half. */
  lemma LabelShowsRawConfidence(confidence: real)
    requires confidence <= Threshold
    ensures Decide(confidence).caption.percent == 100.0 * Decide(confidence).displayConfidence
        <==> confidence == 0.5
  {
  }

  /** Boundary and sample values: 0.7 itself is not a sign; 0.85 and 0.30. */
  lemma SampleDecisions()
    ensures Decide(0.7).classId == 0 && Decide(0.7).color == Red
    ensures Decide(0.85) == Decision(1, 0.85, 0.85, Label("Detected", 85.0), Green)
    ensures Decide(0.30) == Decision(0, 0.30, 0.70, Label("Not Detected", 30.0), Red)
  {
  }
}
