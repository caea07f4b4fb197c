/** Lemmas about concrete frame sequences. */
module Scenarios {
  import opened Options
  import opened Canvas
  import opened ColorCycle
  import opened Classifier
  import opened Hold
  import opened Brush
  import opened Frame
  import opened Runs

  /** Spray offsets for frames whose jitter does not matter. */
  function Still(): (j: seq<Offset>)
    ensures IsJitter(j)
  {
    seq(SprayDots, i => Offset(0, 0))
  }

  /** Index and middle up, ring and pinky down. */
  const CirclePose: Fingers := Fingers(0, 1, 0, 1, 1, 0, 1, 0)

  /** Index up, middle, ring and pinky down. */
  const PointPose: Fingers := Fingers(0, 1, 1, 0, 1, 0, 1, 0)

  const Centre: Point := Point(400, 300)

  /** A hand at the canvas centre, thumb not rotated, at time `now`. */
  function HandAt(now: int, pose: Fingers): FrameInput {
    FrameInput(Some(Hand(Centre, pose, false)), now, Still())
  }

  /** Holding the circle gesture on frames 0.4 s apart: nothing after 0.8 s,
      one red circle of radius 30 at the fingertip once 1.1 s have passed. */
  lemma CircleConfirmedAfterOneSecond()
    ensures var fs := [HandAt(0, CirclePose), HandAt(400, CirclePose), HandAt(800, CirclePose), HandAt(1100, CirclePose)];
      && AllJitter(fs)
      && Emitted(Init, fs, 0) == [] && Emitted(Init, fs, 1) == [] && Emitted(Init, fs, 2) == []
      && Emitted(Init, fs, 3) == [Disc(Palette[0], Centre, 30)]
  {
    var fs := [HandAt(0, CirclePose), HandAt(400, CirclePose), HandAt(800, CirclePose), HandAt(1100, CirclePose)];
    var t := Trace(Init, fs);
    assert t[1].tool == Preview(Some(Circle), 0);
    assert t[2].tool == Preview(Some(Circle), 0);
    assert t[3].tool == Preview(Some(Circle), 0);
  }

  /** Keeping the circle gesture up does not stop at one stamp: the frame
      after a stamp re-arms the preview and a second later it stamps again. */
  lemma HeldCircleStampsAgain()
    ensures var fs := [HandAt(0, CirclePose), HandAt(1000, CirclePose), HandAt(1001, CirclePose), HandAt(2001, CirclePose)];
      && AllJitter(fs)
      && Emitted(Init, fs, 1) == [Disc(Palette[0], Centre, 30)]
      && Emitted(Init, fs, 2) == []
      && Emitted(Init, fs, 3) == [Disc(Palette[0], Centre, 30)]
  {
    var fs := [HandAt(0, CirclePose), HandAt(1000, CirclePose), HandAt(1001, CirclePose), HandAt(2001, CirclePose)];
    var t := Trace(Init, fs);
    assert t[1].tool == Preview(Some(Circle), 0);
    assert t[2].tool == Preview(None, 0);
    assert t[3].tool == Preview(Some(Circle), 1001);
  }

  /** A preview survives pointer and no-hand frames: showing the circle
      gesture again, seconds later, stamps on its first frame. */
  lemma InterruptedHoldStampsAtOnce()
    ensures var fs := [HandAt(0, CirclePose), HandAt(100, PointPose), FrameInput(None, 200, Still()), HandAt(5000, CirclePose)];
      && AllJitter(fs)
      && Emitted(Init, fs, 3) == [Disc(Palette[0], Centre, 30)]
  {
    var fs := [HandAt(0, CirclePose), HandAt(100, PointPose), FrameInput(None, 200, Still()), HandAt(5000, CirclePose)];
    var t := Trace(Init, fs);
    assert t[1].tool == Preview(Some(Circle), 0);
    assert t[2].tool == Preview(Some(Circle), 0);
    assert t[3].tool == Preview(Some(Circle), 0);
  }
}
