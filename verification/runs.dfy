/** Properties of the drawing loop over sequences of frames. */
module Runs {
  import opened Options
  import opened Canvas
  import opened ColorCycle
  import opened Classifier
  import opened Hold
  import opened Brush
  import opened Frame

  /** Every frame carries a valid set of spray offsets. */
  predicate AllJitter(fs: seq<FrameInput>) {
    forall i :: 0 <= i < |fs| ==> IsJitter(fs[i].jitter)
  }

  /** The states the loop passes through: `t[i]` is the state before frame `i`. */
  function Trace(s: State, fs: seq<FrameInput>): (t: seq<State>)
    requires AllJitter(fs)
    ensures |t| == |fs| + 1 && t[0] == s
    ensures forall i :: 0 <= i < |fs| ==> t[i + 1] == Step(t[i], fs[i]).state
    decreases |fs|
  {
    if |fs| == 0 then [s] else [s] + Trace(Step(s, fs[0]).state, fs[1..])
  }

  /** The commands frame `k` emits. */
  function Emitted(s: State, fs: seq<FrameInput>, k: int): seq<Command>
    requires AllJitter(fs) && 0 <= k < |fs|
  {
    Step(Trace(s, fs)[k], fs[k]).commands
  }

  /** Along any run from a reachable state, every state is reachable. */
  lemma {:induction false} ReachableAlong(s: State, fs: seq<FrameInput>, i: int)
    requires AllJitter(fs) && Reachable(s) && 0 <= i <= |fs|
    ensures Reachable(Trace(s, fs)[i])
    decreases i
  {
    if i > 0 {
      ReachableAlong(s, fs, i - 1);
      StepReachable(Trace(s, fs)[i - 1], fs[i - 1]);
    }
  }

  /** From the initial state the brush stays solid and thin, the brush
      preview is never set, and the cooldown never exceeds 30, whatever the
      frames. */
  lemma BrushStaysSolid(fs: seq<FrameInput>, i: int)
    requires AllJitter(fs) && 0 <= i <= |fs|
    ensures var t := Trace(Init, fs)[i];
      && t.brush == Solid && PenWidth(t) == ThinWidth
      && t.brushPreview == Preview(None, 0)
      && t.cooldown <= Reload
  {
    ReachableAlong(Init, fs, i);
  }

  /** Frame `k` changes the colour. */
  predicate ColorChangedAt(s: State, fs: seq<FrameInput>, k: int)
    requires AllJitter(fs) && 0 <= k < |fs|
  {
    Trace(s, fs)[k + 1].color != Trace(s, fs)[k].color
  }

  /** After a colour change the counter counts down from 30 one frame at a
      time, and no change happens while it does. */
  lemma {:induction false} CountdownAfterChange(s: State, fs: seq<FrameInput>, i: int, m: int)
    requires AllJitter(fs) && 0 <= i && 1 <= m <= Reload && i + m <= |fs|
    requires ColorChangedAt(s, fs, i)
    ensures Trace(s, fs)[i + m].cooldown == Reload + 1 - m
    ensures Trace(s, fs)[i + m].color == Trace(s, fs)[i + 1].color
    ensures forall k :: i < k < i + m ==> !ColorChangedAt(s, fs, k)
    decreases m
  {
    var t := Trace(s, fs);
    if m == 1 {
      CooldownStep(t[i], fs[i]);
    } else {
      CountdownAfterChange(s, fs, i, m - 1);
      var k := i + m - 1;
      assert t[k].cooldown == Reload + 2 - m >= 2;
      CooldownStep(t[k], fs[k]);
      assert t[k + 1].cooldown == t[k].cooldown - 1 && t[k + 1].color == t[k].color;
      assert !ColorChangedAt(s, fs, k);
    }
  }

  /** Two colour changes are at least 30 frames apart. */
  lemma ColorChangesSpaced(s: State, fs: seq<FrameInput>, i: int, j: int)
    requires AllJitter(fs) && 0 <= i < j < |fs|
    requires ColorChangedAt(s, fs, i) && ColorChangedAt(s, fs, j)
    ensures j - i >= Reload
  {
    if j - i < Reload {
      CountdownAfterChange(s, fs, i, j - i + 1);
    }
  }

  /** A hand in view with the thumb rotated out. */
  predicate ThumbFrame(f: FrameInput) {
    f.hand.Some? && f.hand.value.thumbOut
  }

  /** Holding the thumb out from an idle counter changes the colour on the
      first frame, not on the 29 frames after it, and again on the 31st: one
      change per 30 frames, stepping through the palette. */
  lemma ThumbHeldCyclesEvery30(s: State, fs: seq<FrameInput>)
    requires AllJitter(fs) && |fs| > Reload && s.cooldown == 0
    requires forall k :: 0 <= k < |fs| ==> ThumbFrame(fs[k])
    ensures ColorChangedAt(s, fs, 0)
    ensures forall k :: 0 < k < Reload ==> !ColorChangedAt(s, fs, k)
    ensures ColorChangedAt(s, fs, Reload)
    ensures Trace(s, fs)[Reload + 1].color == NextColor(NextColor(s.color))
  {
    var t := Trace(s, fs);
    CooldownStep(t[0], fs[0]);
    CountdownAfterChange(s, fs, 0, Reload);
    CooldownStep(t[Reload], fs[Reload]);
  }

  /** A shape stamp: a circle of the stamp radius or a rectangle. */
  predicate IsStamp(c: Command) {
    (c.Disc? && c.radius == StampRadius) || c.Box?
  }

  /** Frame `k` stamps a shape. */
  predicate StampedAt(s: State, fs: seq<FrameInput>, k: int)
    requires AllJitter(fs) && 0 <= k < |fs|
  {
    exists n :: 0 <= n < |Emitted(s, fs, k)| && IsStamp(Emitted(s, fs, k)[n])
  }

  /** A pen segment never contains a stamp, whatever the brush. */
  lemma StrokeIsNoStamp(style: Style, color: Color, start: Point, end: Point, width: int, jitter: seq<Offset>)
    requires style == Spray ==> IsJitter(jitter)
    ensures forall n :: 0 <= n < |DrawLine(style, color, start, end, width, jitter)| ==>
      !IsStamp(DrawLine(style, color, start, end, width, jitter)[n])
  {}

  /** Whenever a run that starts with no tool preview has one, some earlier
      frame showed that shape and armed it at the preview's start time. */
  lemma {:induction false} PreviewArmedEarlier(s: State, fs: seq<FrameInput>, k: int)
    requires AllJitter(fs) && 0 <= k <= |fs| && s.tool.pending == None
    ensures var t := Trace(s, fs);
      t[k].tool.pending.Some? ==>
        exists i :: 0 <= i < k && ShapeOf(fs[i]) == t[k].tool.pending && fs[i].now == t[k].tool.start
    decreases k
  {
    if k > 0 {
      var t := Trace(s, fs);
      PreviewArmedEarlier(s, fs, k - 1);
      ToolStep(t[k - 1], fs[k - 1]);
      if ShapeOf(fs[k - 1]).Some? && t[k - 1].tool.pending != ShapeOf(fs[k - 1]) {
        assert ShapeOf(fs[k - 1]) == t[k].tool.pending && fs[k - 1].now == t[k].tool.start;
      }
    }
  }

  /** Hold to confirm: in a run that starts with no tool preview, a frame
      that stamps shows a shape gesture, and an earlier frame showed the same
      gesture at least one second before. */
  lemma StampNeedsOneSecond(s: State, fs: seq<FrameInput>, j: int)
    requires AllJitter(fs) && 0 <= j < |fs| && s.tool.pending == None
    requires StampedAt(s, fs, j)
    ensures ShapeOf(fs[j]).Some?
    ensures exists i :: 0 <= i < j && ShapeOf(fs[i]) == ShapeOf(fs[j]) && fs[j].now - fs[i].now >= HoldMs
  {
    var t := Trace(s, fs);
    ToolStep(t[j], fs[j]);
    PenStep(t[j], fs[j]);
    if ShapeOf(fs[j]).None? {
      if BranchOf(fs[j]) == Some(Pointer) && t[j].lastPos.Some? {
        var o := Step(t[j], fs[j]);
        StrokeIsNoStamp(t[j].brush, Palette[o.state.color], t[j].lastPos.value, fs[j].hand.value.tip, PenWidth(t[j]), fs[j].jitter);
      } else if fs[j].hand.Some? {
        BrushBranchesUnreachable(fs[j].hand.value.fingers);
      }
    }
    PreviewArmedEarlier(s, fs, j);
  }

  /** A frame the pointer gesture takes. */
  predicate PointerFrame(f: FrameInput) {
    f.hand.Some? && Classify(f.hand.value.fingers) == Pointer
  }

  /** Drawing continuity: consecutive pointer frames P1..Pn, starting with the
      pen up, draw n-1 solid lines of width 5, the k-th joining P(k-1) to
      P(k) in the colour current on that frame; the first frame draws nothing. */
  lemma StrokeJoinsPointerFrames(s: State, fs: seq<FrameInput>)
    requires AllJitter(fs) && Reachable(s) && s.lastPos == None
    requires forall k :: 0 <= k < |fs| ==> fs[k].hand.Some? && Classify(fs[k].hand.value.fingers) == Pointer
    ensures |fs| > 0 ==> Emitted(s, fs, 0) == []
    ensures forall k :: 1 <= k < |fs| ==>
      Emitted(s, fs, k) ==
        [Line(Palette[Trace(s, fs)[k + 1].color], fs[k - 1].hand.value.tip, fs[k].hand.value.tip, ThinWidth)]
  {
    var t := Trace(s, fs);
    if |fs| > 0 {
      PenStep(t[0], fs[0]);
    }
    forall k | 1 <= k < |fs|
      ensures Emitted(s, fs, k) ==
        [Line(Palette[t[k + 1].color], fs[k - 1].hand.value.tip, fs[k].hand.value.tip, ThinWidth)]
    {
      ReachableAlong(s, fs, k);
      PenStep(t[k - 1], fs[k - 1]);
      PenStep(t[k], fs[k]);
    }
  }

  /** Lifting the pen (a frame with no hand or no recognised gesture) breaks
      the stroke: a pointer frame right after it draws nothing. */
  lemma LiftBreaksStroke(s: State, fs: seq<FrameInput>, k: int)
    requires AllJitter(fs) && 0 <= k && k + 1 < |fs|
    requires BranchOf(fs[k]) in {None, Some(NoGesture)}
    requires PointerFrame(fs[k + 1])
    ensures Emitted(s, fs, k) == []
    ensures Emitted(s, fs, k + 1) == []
  {
    var t := Trace(s, fs);
    PenStep(t[k], fs[k]);
    PenStep(t[k + 1], fs[k + 1]);
  }
}
