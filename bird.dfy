/** The player's bird: gravity integration (Bird::update). */
module BirdPhysics {
  import opened Config

  datatype BirdState = BirdState(img: Image, vel: real)

  /** One `Bird::update(delta)`: the velocity gains `BirdAcceleration * delta`
      first, and the position then moves by the NEW velocity times `delta`. */
  function Fall(b: BirdState, delta: real): (r: BirdState)
    ensures r.vel - b.vel == BirdAcceleration * delta
    ensures r.img.y - b.img.y == (b.vel + BirdAcceleration * delta) * delta
    ensures r.img.x == b.img.x && r.img.w == b.img.w && r.img.h == b.img.h
    ensures delta >= 0.0 ==> r.vel >= b.vel
  {
    var vel := b.vel + BirdAcceleration * delta;
    BirdState(b.img.(y := b.img.y + vel * delta), vel)
  }

  class Bird {
    var img: Image
    var vel: real

    function State(): BirdState
      reads this
    {
      BirdState(img, vel)
    }

    /** `Bird(Image img)`: the velocity starts at zero. */
    constructor (img: Image)
      ensures State() == BirdState(img, 0.0)
    {
      this.img := img;
      vel := 0.0;
    }

    method Update(delta: real)
      modifies this
      ensures State() == Fall(old(State()), delta)
    {
      vel := vel + BirdAcceleration * delta;
      img := img.(y := img.y + vel * delta);
    }
  }
}
