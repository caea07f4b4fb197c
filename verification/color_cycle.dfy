/** The colour-cycle debouncer: a frame counter that gates a step through a
    fixed four-colour palette. */
module ColorCycle {
  import opened Canvas

  /** Red, blue, green, white. */
  const Palette: seq<Color> :=
    [Color(255, 0, 0), Color(0, 0, 255), Color(0, 255, 0), Color(255, 255, 255)]

  /** Frames that must pass after a colour change before the next one. */
  const Reload: nat := 30

  /** The active colour is kept as its position in the palette. */
  type PaletteIndex = i: int | 0 <= i < 4

  /** The position of the first occurrence of `c` in `p` (a list `index` lookup). */
  function IndexOf(c: Color, p: seq<Color>): (r: nat)
    requires c in p
    ensures r < |p| && p[r] == c
    ensures forall k :: 0 <= k < r ==> p[k] != c
  {
    if p[0] == c then 0 else 1 + IndexOf(c, p[1..])
  }

  /** Keeping a palette position instead of the colour itself loses nothing:
      the palette's entries are distinct, so looking a palette colour up again
      gives back its own position. */
  lemma PaletteIndexFaithful(i: PaletteIndex)
    ensures IndexOf(Palette[i], Palette) == i
  {
    var r := IndexOf(Palette[i], Palette);
    assert Palette[r] == Palette[i];
  }

  /** The colour after a change: the next palette entry, wrapping from the last to the first. */
  function NextColor(i: PaletteIndex): (r: PaletteIndex)
    ensures Palette[r] == Palette[(IndexOf(Palette[i], Palette) + 1) % |Palette|]
    ensures r != i
    ensures i < |Palette| - 1 ==> r == i + 1
    ensures i == |Palette| - 1 ==> r == 0
  {
    PaletteIndexFaithful(i);
    (i + 1) % |Palette|
  }

  /** The colour state kept between frames. */
  datatype Gate = Gate(color: PaletteIndex, cooldown: nat)

  /** One frame of colour logic. The counter is first decremented if positive
      (on every frame, hand or not); then, if it is 0 and `thumbOut` holds (a
      hand is in view with the thumb rotated more than 120 degrees from the
      wrist), the colour advances and the counter is reloaded. */
  function Tick(g: Gate, thumbOut: bool): (r: Gate)
    ensures r.color != g.color <==> thumbOut && g.cooldown <= 1
    ensures r.color != g.color ==> r.color == NextColor(g.color) && r.cooldown == Reload
    ensures r.color == g.color ==> r.cooldown == if g.cooldown > 0 then g.cooldown - 1 else 0
    ensures g.cooldown > 1 ==> r == Gate(g.color, g.cooldown - 1)
    ensures g.cooldown <= Reload ==> r.cooldown <= Reload
  {
    var c := if g.cooldown > 0 then g.cooldown - 1 else 0;
    if c == 0 && thumbOut then Gate(NextColor(g.color), Reload) else Gate(g.color, c)
  }
}
