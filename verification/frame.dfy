/** One iteration of the drawing loop as a pure step: session state and one
    frame's input in, new session state and the paint commands out. */
module Frame {
  import opened Options
  import opened Canvas
  import opened ColorCycle
  import opened Classifier
  import opened Hold
  import opened Brush

  /** The shape tools (the tool preview's gestures). */
  datatype Shape = Circle | Rect

  /** Stamp sizes: a circle of radius 30, a 60x40 rectangle centred on the fingertip. */
  const StampRadius: int := 30
  const BoxWidth: int := 60
  const BoxHeight: int := 40

  /** Pen widths for the normal and the thick brush. */
  const ThinWidth: int := 5
  const ThickWidth: int := 10

  /** The session state carried from frame to frame. */
  datatype State = State(
    color: PaletteIndex,
    cooldown: nat,
    brush: Style,
    thick: bool,
    tool: Preview<Shape>,
    brushPreview: Preview<Style>,
    lastPos: Option<Point>)

  /** The state before the first frame: red, no cooldown, solid thin brush, no previews, pen up. */
  const Init: State := State(0, 0, Solid, false, Preview(None, 0), Preview(None, 0), None)

  /** A detected hand: the index fingertip in canvas pixels, the finger heights
      the classifier compares, and whether the thumb's angle from the wrist
      exceeds 120 degrees in magnitude. */
  datatype Hand = Hand(tip: Point, fingers: Fingers, thumbOut: bool)

  /** One frame's input: the hand (if the detector found one), the clock in
      milliseconds, and the spray's random offsets for this frame. */
  datatype FrameInput = FrameInput(hand: Option<Hand>, now: int, jitter: seq<Offset>)

  datatype Outcome = Outcome(state: State, commands: seq<Command>)

  /** The pen width: 5, or 10 with the thick brush. */
  function PenWidth(s: State): (w: int)
    ensures w == ThinWidth <==> !s.thick
    ensures w == ThickWidth <==> s.thick
  {
    if s.thick then ThickWidth else ThinWidth
  }

  /** The branch a frame's input takes; a frame without a hand takes none. */
  function BranchOf(f: FrameInput): Option<Branch> {
    if f.hand.Some? then Some(Classify(f.hand.value.fingers)) else None
  }

  /** The shape tool a frame's gesture selects, if any. */
  function ShapeOf(f: FrameInput): Option<Shape> {
    match BranchOf(f)
    case Some(CircleShape) => Some(Circle)
    case Some(RectShape) => Some(Rect)
    case _ => None
  }

  /** The stamp a confirmed shape leaves at fingertip `tip`. */
  function StampAt(shape: Shape, ink: Color, tip: Point): (c: Command)
    ensures c.color == ink
    ensures shape == Circle ==> c.Disc? && c.center == tip && c.radius == StampRadius
    ensures shape == Rect ==>
      && c.Box? && c.w == BoxWidth && c.h == BoxHeight
      && c.left + c.w / 2 == tip.x && c.top + c.h / 2 == tip.y
  {
    match shape
    case Circle => Disc(ink, tip, StampRadius)
    case Rect => Box(ink, tip.x - BoxWidth / 2, tip.y - BoxHeight / 2, BoxWidth, BoxHeight)
  }

  /** One frame: colour logic first, then the gesture chain. A frame without
      a hand only ticks the colour counter and lifts the pen; the colour only
      changes on a frame with a thumb-out hand; nothing sets the thick flag. */
  function Step(s: State, f: FrameInput): (r: Outcome)
    requires IsJitter(f.jitter)
    ensures r.state.thick == s.thick
    ensures r.state.color != s.color ==> f.hand.Some? && f.hand.value.thumbOut
    ensures f.hand.None? ==>
      && r.commands == [] && r.state.lastPos == None
      && r.state.tool == s.tool && r.state.brushPreview == s.brushPreview && r.state.brush == s.brush
  {
    var g := Tick(Gate(s.color, s.cooldown), f.hand.Some? && f.hand.value.thumbOut);
    var s1 := s.(color := g.color, cooldown := g.cooldown);
    match f.hand
    case None => Outcome(s1.(lastPos := None), [])
    case Some(h) => HandStep(s1, h, f.now, f.jitter)
  }

  /** The gesture chain for a frame with a hand in view. It leaves the
      colour, the cooldown counter and the thick flag alone. */
  function HandStep(s: State, h: Hand, now: int, jitter: seq<Offset>): (r: Outcome)
    requires IsJitter(jitter)
    ensures r.state.color == s.color && r.state.cooldown == s.cooldown && r.state.thick == s.thick
  {
    var ink := Palette[s.color];
    match Classify(h.fingers)
    case CircleShape =>
      var c := Confirm(s.tool, Circle, now);
      Outcome(s.(tool := c.preview), if c.fired then [StampAt(Circle, ink, h.tip)] else [])
    case RectShape =>
      var c := Confirm(s.tool, Rect, now);
      Outcome(s.(tool := c.preview), if c.fired then [StampAt(Rect, ink, h.tip)] else [])
    case DashedBrush =>
      var c := Confirm(s.brushPreview, Dashed, now);
      Outcome(s.(brushPreview := c.preview, brush := if c.fired then Dashed else s.brush), [])
    case SprayBrush =>
      var c := Confirm(s.brushPreview, Spray, now);
      Outcome(s.(brushPreview := c.preview, brush := if c.fired then Spray else s.brush), [])
    case Pointer =>
      var segment := if s.lastPos.Some? then DrawLine(s.brush, ink, s.lastPos.value, h.tip, PenWidth(s), jitter) else [];
      Outcome(s.(lastPos := Some(h.tip)), segment)
    case NoGesture =>
      Outcome(s.(lastPos := None), [])
  }

  /** The cooldown counter, frame by frame: it drops by exactly one while it
      is above 1, hand or no hand; the colour changes only on a frame with a
      thumb-out hand whose counter is at most 1 on entry (0 after the
      decrement), moving to the next palette entry and reloading the counter
      to 30; and the counter never exceeds 30. */
  lemma CooldownStep(s: State, f: FrameInput)
    requires IsJitter(f.jitter)
    ensures var r := Step(s, f).state;
      && (s.cooldown > 1 ==> r.cooldown == s.cooldown - 1 && r.color == s.color)
      && (r.color != s.color <==> f.hand.Some? && f.hand.value.thumbOut && s.cooldown <= 1)
      && (r.color != s.color ==> r.color == NextColor(s.color) && r.cooldown == Reload)
      && (r.color == s.color ==> r.cooldown == if s.cooldown > 0 then s.cooldown - 1 else 0)
      && (s.cooldown <= Reload ==> r.cooldown <= Reload)
  {
    var g := Tick(Gate(s.color, s.cooldown), f.hand.Some? && f.hand.value.thumbOut);
    assert Step(s, f).state.color == g.color && Step(s, f).state.cooldown == g.cooldown;
  }

  /** Pen continuity. On a pointer frame the segment from the previous pen
      position to the fingertip is drawn exactly when there was a previous
      position (a solid pen then emits exactly one line), and the fingertip
      becomes the pen position. Frames with no hand or no recognised gesture
      lift the pen and draw nothing. Shape frames keep the pen position. */
  lemma PenStep(s: State, f: FrameInput)
    requires IsJitter(f.jitter)
    ensures var o := Step(s, f);
      && (BranchOf(f) == Some(Pointer) ==>
            && o.state.lastPos == Some(f.hand.value.tip)
            && (s.lastPos.None? ==> o.commands == [])
            && (s.lastPos.Some? ==>
                  o.commands == DrawLine(s.brush, Palette[o.state.color], s.lastPos.value, f.hand.value.tip, PenWidth(s), f.jitter))
            && (s.brush == Solid ==> (|o.commands| == 1 <==> s.lastPos.Some?)))
      && (BranchOf(f) in {None, Some(NoGesture)} ==> o.state.lastPos == None && o.commands == [])
      && (ShapeOf(f).Some? ==> o.state.lastPos == s.lastPos)
  {}

  /** The tool preview. A shape frame whose shape is not the one previewed
      arms a preview of it, timed from now, and stamps nothing. A stamp comes
      only on a shape frame whose shape is already previewed and at least one
      second after the preview was armed; it is the fixed-size shape at the
      fingertip in the current colour, and the preview is cleared. Every other
      frame leaves the tool preview as it was. */
  lemma ToolStep(s: State, f: FrameInput)
    requires IsJitter(f.jitter)
    ensures var o := Step(s, f);
      && (ShapeOf(f).Some? && s.tool.pending != ShapeOf(f) ==>
            o.state.tool == Preview(ShapeOf(f), f.now) && o.commands == [])
      && (ShapeOf(f).Some? && s.tool.pending == ShapeOf(f) && f.now - s.tool.start >= HoldMs ==>
            && o.commands == [StampAt(ShapeOf(f).value, Palette[o.state.color], f.hand.value.tip)]
            && o.state.tool == Preview(None, s.tool.start))
      && (ShapeOf(f).Some? && s.tool.pending == ShapeOf(f) && f.now - s.tool.start < HoldMs ==>
            o.state.tool == s.tool && o.commands == [])
      && (ShapeOf(f).None? ==> o.state.tool == s.tool)
  {}

  /** The state the frame loop can be in: the counter within its reload
      value, and the brush-selection state untouched, because the brush
      branches cannot be entered and nothing sets the thick flag. */
  predicate Reachable(s: State) {
    && s.cooldown <= Reload
    && s.brush == Solid
    && !s.thick
    && s.brushPreview == Preview(None, 0)
  }

  /** Every frame keeps the state reachable. */
  lemma StepReachable(s: State, f: FrameInput)
    requires IsJitter(f.jitter)
    requires Reachable(s)
    ensures Reachable(Step(s, f).state)
  {
    if f.hand.Some? {
      BrushBranchesUnreachable(f.hand.value.fingers);
    }
  }
}
