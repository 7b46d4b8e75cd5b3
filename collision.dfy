/** The `coll` lambda of `main`: an axis-aligned test of the bird's box
    against one pipe pair. */
module Collision {
  import opened Config
  import opened BirdPhysics
  import opened Pipes

  /** The bird box lies wholly inside the vertical opening of the pair. */
  predicate WithinGap(b: Image, p: PipeState)
  {
    GapTop(p) <= b.y && b.y + b.h as real <= p.up.y
  }

  /** The bird box lies wholly left or wholly right of the pair's column. */
  predicate BesideColumn(b: Image, p: PipeState)
  {
    b.x + b.w as real <= p.up.x || p.up.x + p.up.w as real <= b.x
  }

  /** `coll(bird, pipe)`. The column is that of the lower pipe `up`, and it
      is unbounded vertically: a bird above the top of the window inside
      the column collides as well. */
  function Collides(bird: BirdState, p: PipeState): (c: bool)
    ensures BesideColumn(bird.img, p) ==> !c
    ensures WithinGap(bird.img, p) ==> !c
  {
    var b := bird.img;
    b.x + b.w as real > p.up.x && b.x < p.up.x + p.up.w as real
    && (b.y < p.down.y + p.down.h as real || b.y + b.h as real > p.up.y)
  }

  /** The point (px, py) lies strictly inside the bird box and strictly
      inside the pipe column, outside the opening. */
  predicate SharedPoint(b: Image, p: PipeState, px: real, py: real)
  {
    b.x < px < b.x + b.w as real && b.y < py < b.y + b.h as real
    && p.up.x < px < p.up.x + p.up.w as real
    && (py < GapTop(p) || py > p.up.y)
  }

  function Max(a: real, b: real): real { if a < b then b else a }
  function Min(a: real, b: real): real { if a < b then a else b }

  /** Geometric meaning of `coll`: for a bird box and a column of positive size, it
      holds exactly when the open bird box and the solid part of the column
      (everything but the opening) share a point. */
  lemma CollidesIffSharedPoint(bird: BirdState, p: PipeState)
    requires bird.img.w > 0 && bird.img.h > 0 && p.up.w > 0
    ensures Collides(bird, p) <==> exists px, py :: SharedPoint(bird.img, p, px, py)
  {
    var b := bird.img;
    if Collides(bird, p) {
      var px := (Max(b.x, p.up.x) + Min(b.x + b.w as real, p.up.x + p.up.w as real)) / 2.0;
      var py := if b.y < GapTop(p) then (b.y + Min(b.y + b.h as real, GapTop(p))) / 2.0
                else (Max(b.y, p.up.y) + b.y + b.h as real) / 2.0;
      assert SharedPoint(b, p, px, py);
    } else if exists px, py :: SharedPoint(b, p, px, py) {
      var px, py :| SharedPoint(b, p, px, py);
      assert Collides(bird, p);
    }
  }

  /** The column is unbounded upward: for any pair the loop can hold, a
      bird whose top is above the window and which overlaps the column
      collides, even with a parked pair that shows no pipe. */
  lemma AboveWindowCollides(bird: BirdState, p: PipeState)
    requires PipeInv(p)
    requires bird.img.x + bird.img.w as real > p.up.x && bird.img.x < p.up.x + p.up.w as real
    requires bird.img.y < 0.0
    ensures Collides(bird, p)
  {
  }
}
