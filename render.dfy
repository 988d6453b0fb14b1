/**
 * The drawing decisions taken in `onResults` before and while the frame is drawn.
 * The drawing calls themselves are not modelled; what is modelled is whether the
 * horizontal flip is applied, what that flip does to an x coordinate, and which
 * colour strings the overlay is drawn with.
 */
module Render {
  import opened Launch

  /** The flip is applied for the front camera only, and only when mirroring was asked for. */
  function Mirrored(c: Config): (b: bool)
    ensures c.isBackCamera ==> !b
    ensures !c.flipHorizontal ==> !b
    ensures !c.isBackCamera && c.flipHorizontal ==> b
  {
    !c.isBackCamera && c.flipHorizontal
  }

  /** `translate(width, 0)` followed by `scale(-1, 1)`: the x a drawing call lands on. */
  function FlipX(width: real, x: real): (x': real)
    ensures 0.0 <= x <= width ==> 0.0 <= x' <= width
  {
    width - x
  }

  /** The x coordinate a point drawn at `x` ends up at on the canvas under configuration `c`. */
  function CanvasX(c: Config, width: real, x: real): real
  {
    if Mirrored(c) then FlipX(width, x) else x
  }

  /** Mirroring, read from the launch parameters: both directions of the if-and-only-if. */
  lemma MirroredFromQuery(q: Query)
    ensures Mirrored(Resolve(q)) <==>
              !("isBackCamera" in q && q["isBackCamera"] == "true") &&
              ("flipHorizontal" in q && q["flipHorizontal"] == "true")
  {
  }

  /** The back camera is never mirrored, whatever the flip parameter says. */
  lemma BackCameraNeverMirrored(q: Query)
    requires "isBackCamera" in q && q["isBackCamera"] == "true"
    ensures !Mirrored(Resolve(q))
    ensures forall width: real, x: real :: CanvasX(Resolve(q), width, x) == x
  {
  }

  /** The CSS colour the overlay is drawn with: `rgb(<parameter>)`. */
  function RgbColor(rgb: string): (s: string)
    ensures |s| == |rgb| + 5 && s[..4] == "rgb(" && s[|s| - 1] == ')'
    ensures s[4..|s| - 1] == rgb
  {
    "rgb(" + rgb + ")"
  }
}
