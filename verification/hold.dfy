/** Hold-to-confirm: a gesture must be seen on a frame that arms a preview and
    again on a later frame at least one second after, before its action fires.
    The same machine serves the shape tool and the brush selector. */
module Hold {
  import opened Options

  /** The confirmation delay, in milliseconds. */
  const HoldMs: int := 1000

  /** The previewed gesture (if any) and the time the preview was armed. The
      time is kept when the preview is cleared, as the frame loop does. */
  datatype Preview<L> = Preview(pending: Option<L>, start: int)

  /** The preview after a frame, and whether the action fired on it. */
  datatype Held<L> = Held(preview: Preview<L>, fired: bool)

  /** A frame on which the classifier saw gesture `l` at time `now`. A
      different (or no) previewed gesture is replaced by `l`, armed at `now`;
      the same label fires once at least `HoldMs` have passed since it was
      armed, and the preview is then cleared. */
  function Confirm<L(==)>(p: Preview<L>, l: L, now: int): (r: Held<L>)
    ensures r.fired <==> p.pending == Some(l) && now - p.start >= HoldMs
    ensures r.fired ==> r.preview == Preview(None, p.start)
    ensures p.pending != Some(l) ==> r.preview == Preview(Some(l), now)
    ensures p.pending == Some(l) && !r.fired ==> r.preview == p
    ensures r.preview.pending == None || r.preview.pending == Some(l)
  {
    if p.pending != Some(l) then Held(Preview(Some(l), now), false)
    else if now - p.start >= HoldMs then Held(Preview(None, p.start), true)
    else Held(p, false)
  }
}
