/** The pool of pipe pairs that scroll left and are recycled in place
    (Pipe::Pipe, Pipe::update). */
module Pipes {
  import opened Config

  /** `up` is the lower pipe (its top edge is the bottom of the gap),
      `down` the upper one (its bottom edge is the top of the gap). */
  datatype PipeState = PipeState(up: Image, down: Image)

  /** Top edge of the gap: the bottom edge of the upper pipe. */
  function GapTop(p: PipeState): real
  {
    p.down.y + p.down.h as real
  }

  /** Height of the opening between the two pipes of a pair. */
  function Opening(p: PipeState): real
  {
    p.up.y - GapTop(p)
  }

  /** Divisor of the `fmod` that draws a gap position, a `float` expression
      in the source: `(WinHeight - PipeBounds) - PipeBounds`. */
  const GapRange: real := (WinHeight as real - PipeBounds) - PipeBounds

  /** New gap position from a draw of `std::rand()`. For a non-negative
      whole draw, `fmod` by the whole number `GapRange` is the integer
      remainder. */
  function RecyclePos(draw: nat): (pos: real)
    ensures PipeBounds <= pos < WinHeight as real - PipeBounds
    ensures pos == pos.Floor as real
  {
    assert GapRange == 112.0;
    (draw % GapRange.Floor) as real + PipeBounds
  }

  /** Every whole position in `[PipeBounds, WinHeight - PipeBounds)` is
      reached by some draw. */
  lemma RecyclePosCovers(k: nat)
    requires k < 112
    ensures RecyclePos(k) == PipeBounds + k as real
  {
  }

  /** One `Pipe::update(delta, draw)`; `draw` is the value `std::rand()`
      would return, consulted only when the pair is recycled. */
  function PipeStep(p: PipeState, delta: real, draw: nat): (q: PipeState)
    ensures q.up.w == p.up.w && q.up.h == p.up.h && q.down.w == p.down.w && q.down.h == p.down.h
    ensures p.up.x == p.down.x ==> q.up.x == q.down.x
    ensures q.up.x >= RecycleThreshold as real
    // under the threshold: both pipes move left together and keep their heights
    ensures p.up.x - PipeVelocity * delta >= RecycleThreshold as real ==>
              q.up.x == p.up.x - PipeVelocity * delta && q.down.x == p.down.x - PipeVelocity * delta
              && q.up.y == p.up.y && q.down.y == p.down.y
    // across the threshold: teleported to the right edge with a fresh gap of exactly PipeSpacing
    ensures p.up.x - PipeVelocity * delta < RecycleThreshold as real ==>
              q.up.x == WinWidth as real && q.down.x == WinWidth as real
              && q.up.y == RecyclePos(draw) && Opening(q) == PipeSpacing
              && PipeBounds <= q.up.y < WinHeight as real - PipeBounds
  {
    var up := p.up.(x := p.up.x - PipeVelocity * delta);
    var down := p.down.(x := p.down.x - PipeVelocity * delta);
    if up.x < RecycleThreshold as real then
      var pos := RecyclePos(draw);
      PipeState(up.(x := WinWidth as real, y := pos),
                down.(x := WinWidth as real, y := pos - PipeSpacing - down.h as real))
    else
      PipeState(up, down)
  }

  /** Both images of a pair are the 52 x 320 pipe sprites. */
  predicate Shaped(p: PipeState)
  {
    p.up.w == 52 && p.up.h == 320 && p.down.w == 52 && p.down.h == 320
  }

  /** Rightmost x a pair ever has: the third pair's starting place. */
  const SpawnLimit: real := 52.0 + WinWidth as real

  /** The vertical layout a pair can have: either the one `Pipe::Pipe`
      gives it (both pipes parked off screen, the whole height open) or
      one chosen by a recycle (an opening of exactly `PipeSpacing` whose
      bottom lies in `[PipeBounds, WinHeight - PipeBounds)`). */
  predicate GapWellFormed(p: PipeState)
  {
    (p.up.y == WinHeight as real && p.down.y == -(p.down.h as real))
    || (Opening(p) == PipeSpacing && PipeBounds <= p.up.y < WinHeight as real - PipeBounds)
  }

  predicate PipeInv(p: PipeState)
  {
    Shaped(p) && p.up.x == p.down.x
    && RecycleThreshold as real <= p.up.x <= SpawnLimit
    && GapWellFormed(p)
  }

  lemma PipeStepPreservesInv(p: PipeState, delta: real, draw: nat)
    requires PipeInv(p) && delta >= 0.0
    ensures PipeInv(PipeStep(p, delta, draw))
  {
  }

  class Pipe {
    var up: Image
    var down: Image

    function State(): PipeState
      reads this
    {
      PipeState(up, down)
    }

    /** `Pipe(Image up, Image down)`: the lower pipe is parked just below
        the window, the upper one just above it. */
    constructor (up: Image, down: Image)
      ensures State() == PipeState(up.(y := WinHeight as real), down.(y := -(down.h as real)))
    {
      this.up := up.(y := WinHeight as real);
      this.down := down.(y := -(down.h as real));
    }

    /** The copy made by `pipe2 = pipe`. */
    constructor Copy(other: Pipe)
      ensures State() == other.State()
    {
      up := other.up;
      down := other.down;
    }

    method Update(delta: real, draw: nat)
      modifies this
      ensures State() == PipeStep(old(State()), delta, draw)
    {
      up := up.(x := up.x - PipeVelocity * delta);
      down := down.(x := down.x - PipeVelocity * delta);
      if up.x < RecycleThreshold as real {
        up := up.(x := WinWidth as real);
        down := down.(x := WinWidth as real);
        var pos := RecyclePos(draw);
        up := up.(y := pos);
        down := down.(y := pos - PipeSpacing - down.h as real);
      }
    }
  }
}
