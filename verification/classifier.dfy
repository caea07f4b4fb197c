/** The gesture classifier: finger tests on landmark heights, tried in a fixed
    order, first match wins. */
module Classifier {

  /** Vertical coordinates of the finger tips and of the joints they are
      compared with (index 8/6, middle 12/10, ring 16/14, pinky 20/18). Smaller
      is higher in the camera image. Any order-preserving integer scale stands
      for the detector's normalised values. */
  datatype Fingers = Fingers(
    indexTip: int, indexJoint: int,
    middleTip: int, middleJoint: int,
    ringTip: int, ringJoint: int,
    pinkyTip: int, pinkyJoint: int)

  /** The tip is strictly above the joint. */
  predicate Raised(tip: int, joint: int) { tip < joint }

  /** The tip is strictly below the joint. A tip level with its joint is neither. */
  predicate Lowered(tip: int, joint: int) { tip > joint }

  /** Index and middle up, ring down: the circle tool. */
  predicate CircleSign(f: Fingers) {
    Raised(f.indexTip, f.indexJoint) && Raised(f.middleTip, f.middleJoint) && Lowered(f.ringTip, f.ringJoint)
  }

  /** Index and pinky up, middle down: the rectangle tool. */
  predicate RectSign(f: Fingers) {
    Raised(f.indexTip, f.indexJoint) && Raised(f.pinkyTip, f.pinkyJoint) && Lowered(f.middleTip, f.middleJoint)
  }

  /** Index and middle up, ring and pinky down: the dashed brush. */
  predicate PeaceSign(f: Fingers) {
    && Raised(f.indexTip, f.indexJoint) && Raised(f.middleTip, f.middleJoint)
    && Lowered(f.ringTip, f.ringJoint) && Lowered(f.pinkyTip, f.pinkyJoint)
  }

  /** Index and pinky up, middle down: the spray brush. */
  predicate RockSign(f: Fingers) {
    Raised(f.indexTip, f.indexJoint) && Raised(f.pinkyTip, f.pinkyJoint) && Lowered(f.middleTip, f.middleJoint)
  }

  /** Index up, middle down: drawing with the index fingertip. */
  predicate PointerSign(f: Fingers) {
    Raised(f.indexTip, f.indexJoint) && Lowered(f.middleTip, f.middleJoint)
  }

  /** The branch of the frame loop's gesture chain a hand enters. */
  datatype Branch = CircleShape | RectShape | DashedBrush | SprayBrush | Pointer | NoGesture

  /** The chain as written: the first sign that holds decides the branch.
      The two shape signs exclude each other, so each shape tool is chosen
      exactly when its own sign holds, whatever its place in the order. */
  function Classify(f: Fingers): (b: Branch)
    ensures b == CircleShape <==> CircleSign(f)
    ensures b == RectShape <==> RectSign(f)
  {
    if CircleSign(f) then CircleShape
    else if RectSign(f) then RectShape
    else if PeaceSign(f) then DashedBrush
    else if RockSign(f) then SprayBrush
    else if PointerSign(f) then Pointer
    else NoGesture
  }

  /** The dashed-brush sign is a strengthening of the circle sign. */
  lemma PeaceImpliesCircle(f: Fingers)
    ensures PeaceSign(f) ==> CircleSign(f)
  {}

  /** The spray-brush sign is the rectangle sign. */
  lemma RockIsRect(f: Fingers)
    ensures RockSign(f) <==> RectSign(f)
  {}

  /** Hence no hand ever reaches either brush branch. */
  lemma BrushBranchesUnreachable(f: Fingers)
    ensures Classify(f) != DashedBrush
    ensures Classify(f) != SprayBrush
  {
    PeaceImpliesCircle(f);
    RockIsRect(f);
  }

  /** The chain described sign by sign, without its order: the circle and
      rectangle signs exclude each other, the pointer branch takes the pointer
      sign minus the rectangle sign (which strengthens it), and everything else
      draws nothing. */
  lemma ClassifyCharacterised(f: Fingers)
    ensures Classify(f) == CircleShape <==> CircleSign(f)
    ensures Classify(f) == RectShape <==> RectSign(f)
    ensures Classify(f) == Pointer <==> PointerSign(f) && !RectSign(f)
    ensures Classify(f) == NoGesture <==> !CircleSign(f) && !PointerSign(f)
  {
    BrushBranchesUnreachable(f);
  }

  /** The peace pose exists as a hand shape, yet it selects the circle tool. */
  lemma PeacePoseDrawsCircle()
    ensures exists f :: PeaceSign(f) && Classify(f) == CircleShape
  {
    var f := Fingers(0, 1, 0, 1, 1, 0, 1, 0);
    assert PeaceSign(f) && Classify(f) == CircleShape;
  }
}
