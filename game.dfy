/** The simulation part of `main`'s loop: one tick of physics, scrolling,
    recycling and collision, then the jump and quit commands. */
module Simulation {
  import opened Config
  import opened BirdPhysics
  import opened Pipes
  import opened Collision

  /** Everything the loop updates: the bird, the three pipe pairs, the two
      background copies and the one-way `lose` flag. */
  datatype World = World(bird: BirdState, pipe1: PipeState, pipe2: PipeState, pipe3: PipeState,
                         bgnd: Image, bgnd2: Image, lose: bool)

  /** The two commands the event loop reacts to: the space key, and
      escape or a window close. */
  datatype Command = Jump | Quit

  /** What one loop iteration consumes: the measured `delta`, the values
      `std::rand()` would return to each pipe, and the polled commands. */
  datatype Frame = Frame(delta: real, draw1: nat, draw2: nat, draw3: nat, events: seq<Command>)

  /** One background copy scrolls left and wraps to `WinWidth - 1` once it
      is wholly off the left edge. */
  function ScrollBackground(g: Image, delta: real): (r: Image)
    ensures r.x >= -(g.w as real)
    ensures r.y == g.y && r.w == g.w && r.h == g.h
    ensures g.x - BgndVelocity * delta >= -(g.w as real) ==> r.x == g.x - BgndVelocity * delta
    ensures g.x - BgndVelocity * delta < -(g.w as real) ==> r.x == (WinWidth - 1) as real
  {
    var moved := g.(x := g.x - BgndVelocity * delta);
    if moved.x < -(g.w as real) then moved.(x := (WinWidth - 1) as real) else moved
  }

  /** Some pipe pair touches the bird. */
  predicate AnyCollision(w: World)
  {
    Collides(w.bird, w.pipe1) || Collides(w.bird, w.pipe2) || Collides(w.bird, w.pipe3)
  }

  /** The pipes and backgrounds of `v` are those of `w`. */
  predicate SceneryUnchanged(w: World, v: World)
  {
    v.pipe1 == w.pipe1 && v.pipe2 == w.pipe2 && v.pipe3 == w.pipe3
    && v.bgnd == w.bgnd && v.bgnd2 == w.bgnd2
  }

  /** One tick of the loop with elapsed time `delta`. The bird falls even
      after a loss; only the scenery freezes. */
  function Step(w: World, delta: real, draw1: nat, draw2: nat, draw3: nat): (r: World)
    ensures r.bird == Fall(w.bird, delta)
    ensures r.lose <==> w.lose || AnyCollision(r)
    ensures w.lose ==> SceneryUnchanged(w, r)
    ensures !w.lose ==> r.pipe1 == PipeStep(w.pipe1, delta, draw1)
                        && r.pipe2 == PipeStep(w.pipe2, delta, draw2)
                        && r.pipe3 == PipeStep(w.pipe3, delta, draw3)
                        && r.bgnd == ScrollBackground(w.bgnd, delta)
                        && r.bgnd2 == ScrollBackground(w.bgnd2, delta)
  {
    var bird := Fall(w.bird, delta);
    if w.lose then
      w.(bird := bird)
    else
      var next := World(bird, PipeStep(w.pipe1, delta, draw1), PipeStep(w.pipe2, delta, draw2),
                        PipeStep(w.pipe3, delta, draw3), ScrollBackground(w.bgnd, delta),
                        ScrollBackground(w.bgnd2, delta), false);
      next.(lose := AnyCollision(next))
  }

  /** The world after a jump: only the bird's velocity changes. */
  function Jumped(w: World): (r: World)
    ensures r.bird.vel == BirdJump
    ensures r.bird.img == w.bird.img && r.lose == w.lose && SceneryUnchanged(w, r)
  {
    w.(bird := w.bird.(vel := BirdJump))
  }

  /** The effect of one polled command on the world. */
  function Press(w: World, c: Command): (r: World)
    ensures c == Quit || w.lose ==> r == w
    ensures c == Jump && !w.lose ==> r.bird.vel == BirdJump
    ensures r.bird.img == w.bird.img && r.lose == w.lose && SceneryUnchanged(w, r)
  {
    match c
    case Jump => if w.lose then w else Jumped(w)
    case Quit => w
  }

  /** The event loop over the commands polled in one iteration. A jump
      sets the velocity to `BirdJump` whatever it was, and only while the
      game is not lost; nothing else changes. */
  function Respond(w: World, events: seq<Command>): (r: World)
    ensures r == if !w.lose && Jump in events then Jumped(w) else w
    decreases |events|
  {
    if events == [] then w
    else
      assert Jump in events <==> events[0] == Jump || Jump in events[1..] by {
        assert events == [events[0]] + events[1..];
      }
      Respond(Press(w, events[0]), events[1..])
  }

  /** One iteration of `while (!quit)`: a tick, then the event loop. */
  function Iterate(w: World, f: Frame): (r: World)
    ensures r.bird.img == Fall(w.bird, f.delta).img
    ensures r.lose <==> w.lose || AnyCollision(r)
    ensures w.lose ==> SceneryUnchanged(w, r)
  {
    Respond(Step(w, f.delta, f.draw1, f.draw2, f.draw3), f.events)
  }

  /** The loop run over successive frames; it stops after the first
      frame that carries a quit command. */
  function Run(w: World, frames: seq<Frame>): (r: World)
    ensures w.lose ==> r.lose
    ensures frames != [] && AnyCollision(r) ==> r.lose
    decreases |frames|
  {
    if frames == [] then w
    else
      var next := Iterate(w, frames[0]);
      if Quit in frames[0].events then next else Run(next, frames[1..])
  }

  /** Total time the loop integrates over `frames` before it stops. */
  function Elapsed(frames: seq<Frame>): real
    decreases |frames|
  {
    if frames == [] then 0.0
    else frames[0].delta + (if Quit in frames[0].events then 0.0 else Elapsed(frames[1..]))
  }

  predicate NonNegativeDeltas(frames: seq<Frame>)
  {
    forall k :: 0 <= k < |frames| ==> frames[k].delta >= 0.0
  }

  predicate NoJumps(frames: seq<Frame>)
  {
    forall k :: 0 <= k < |frames| ==> Jump !in frames[k].events
  }

  /** The state `main` sets up before the loop. */
  function Initial(): (w: World)
    ensures !w.lose && w.bird.vel == 0.0
    ensures w.pipe1.up.x == w.pipe1.up.w as real
    ensures w.pipe2.up.x - w.pipe1.up.x == (WinWidth / 2) as real == w.pipe3.up.x - w.pipe2.up.x
    ensures w.bgnd2.x - w.bgnd.x == WinWidth as real
    ensures w.pipe1.up.y == w.pipe2.up.y == w.pipe3.up.y == WinHeight as real
  {
    var parked := PipeState(Image(0.0, WinHeight as real, 52, 320), Image(0.0, -320.0, 52, 320));
    World(BirdState(Image(127.0, 244.0, 34, 24), 0.0),
          PipeState(parked.up.(x := 52.0), parked.down.(x := 52.0)),
          PipeState(parked.up.(x := 196.0), parked.down.(x := 196.0)),
          PipeState(parked.up.(x := 340.0), parked.down.(x := 340.0)),
          Image(0.0, 0.0, 288, 512), Image(WinWidth as real, 0.0, 288, 512), false)
  }

  /** A background copy is the 288 x 512 sprite and stays within one
      width of the window's left edge and no further right than its
      starting place. */
  predicate BgndInv(g: Image)
  {
    g.w == 288 && g.h == 512 && -(g.w as real) <= g.x <= WinWidth as real
  }

  /** The invariant the loop keeps: the bird stays in its column with its
      sprite size, and every pipe pair and background keeps its shape and
      stays within its range. */
  predicate Inv(w: World)
  {
    w.bird.img.x == 127.0 && w.bird.img.w == 34 && w.bird.img.h == 24
    && PipeInv(w.pipe1) && PipeInv(w.pipe2) && PipeInv(w.pipe3)
    && BgndInv(w.bgnd) && BgndInv(w.bgnd2)
  }

  lemma InitialInv()
    ensures Inv(Initial()) && !Initial().lose
  {
  }

  lemma IteratePreservesInv(w: World, f: Frame)
    requires Inv(w) && f.delta >= 0.0
    ensures Inv(Iterate(w, f))
  {
    if !w.lose {
      PipeStepPreservesInv(w.pipe1, f.delta, f.draw1);
      PipeStepPreservesInv(w.pipe2, f.delta, f.draw2);
      PipeStepPreservesInv(w.pipe3, f.delta, f.draw3);
    }
  }

  /** Over any run with non-negative time steps the invariant holds. */
  lemma {:induction false} RunPreservesInv(w: World, frames: seq<Frame>)
    requires Inv(w) && NonNegativeDeltas(frames)
    ensures Inv(Run(w, frames))
    decreases |frames|
  {
    if frames != [] {
      IteratePreservesInv(w, frames[0]);
      if Quit !in frames[0].events {
        RunPreservesInv(Iterate(w, frames[0]), frames[1..]);
      }
    }
  }

  /** Once lost, the game stays lost, the pipes and backgrounds never move
      again, jumps are ignored, and the bird keeps accelerating under
      gravity for the whole time the loop still runs. */
  lemma {:induction false} LossIsPermanent(w: World, frames: seq<Frame>)
    requires w.lose
    ensures Run(w, frames).lose
    ensures SceneryUnchanged(w, Run(w, frames))
    ensures Run(w, frames).bird.vel == w.bird.vel + BirdAcceleration * Elapsed(frames)
    decreases |frames|
  {
    if frames != [] {
      var next := Iterate(w, frames[0]);
      if Quit !in frames[0].events {
        LossIsPermanent(next, frames[1..]);
      }
    }
  }

  /** Without jumps and with non-negative time steps the bird's velocity
      never decreases: only gravity acts on it. */
  lemma {:induction false} GravityOnlyAccelerates(w: World, frames: seq<Frame>)
    requires NoJumps(frames) && NonNegativeDeltas(frames)
    ensures Run(w, frames).bird.vel == w.bird.vel + BirdAcceleration * Elapsed(frames)
    ensures Run(w, frames).bird.vel >= w.bird.vel
    decreases |frames|
  {
    if frames != [] {
      var next := Iterate(w, frames[0]);
      assert next.bird.vel == w.bird.vel + BirdAcceleration * frames[0].delta;
      if Quit !in frames[0].events {
        GravityOnlyAccelerates(next, frames[1..]);
      }
    }
  }

  class Game {
    const bird: Bird
    const pipe1: Pipe
    const pipe2: Pipe
    const pipe3: Pipe
    var bgnd: Image
    var bgnd2: Image
    var lose: bool

    /** The three pairs are distinct objects, as three C++ values are. */
    ghost predicate Valid()
      reads this
    {
      pipe1 != pipe2 && pipe1 != pipe3 && pipe2 != pipe3
    }

    function State(): World
      reads this, bird, pipe1, pipe2, pipe3
    {
      World(bird.State(), pipe1.State(), pipe2.State(), pipe3.State(), bgnd, bgnd2, lose)
    }

    /** The set-up at the top of `main`. */
    constructor ()
      ensures Valid() && State() == Initial()
      ensures fresh(bird) && fresh(pipe1) && fresh(pipe2) && fresh(pipe3)
    {
      var background := Image(0.0, 0.0, 288, 512);
      bgnd := background;
      bgnd2 := background.(x := WinWidth as real);
      bird := new Bird(Image((WinWidth / 2 - 34 / 2) as real, (WinHeight / 2 - 24 / 2) as real, 34, 24));
      var first := new Pipe(Image(0.0, 0.0, 52, 320), Image(0.0, 0.0, 52, 320));
      pipe1 := first;
      pipe2 := new Pipe.Copy(first);
      pipe3 := new Pipe.Copy(first);
      lose := false;
      new;
      pipe1.up := pipe1.up.(x := pipe1.up.w as real);
      pipe1.down := pipe1.down.(x := pipe1.down.w as real);
      pipe2.up := pipe2.up.(x := (pipe2.up.w + WinWidth / 2) as real);
      pipe2.down := pipe2.down.(x := (pipe2.down.w + WinWidth / 2) as real);
      pipe3.up := pipe3.up.(x := (pipe3.up.w + WinWidth) as real);
      pipe3.down := pipe3.down.(x := (pipe3.down.w + WinWidth) as real);
    }

    /** The simulation part of one loop iteration. */
    method Tick(delta: real, draw1: nat, draw2: nat, draw3: nat)
      requires Valid()
      modifies this, bird, pipe1, pipe2, pipe3
      ensures Valid()
      ensures State() == Step(old(State()), delta, draw1, draw2, draw3)
    {
      bird.Update(delta);
      if !lose {
        bgnd := bgnd.(x := bgnd.x - BgndVelocity * delta);
        bgnd2 := bgnd2.(x := bgnd2.x - BgndVelocity * delta);
        if bgnd.x < -(bgnd.w as real) { bgnd := bgnd.(x := (WinWidth - 1) as real); }
        if bgnd2.x < -(bgnd2.w as real) { bgnd2 := bgnd2.(x := (WinWidth - 1) as real); }
        pipe1.Update(delta, draw1);
        pipe2.Update(delta, draw2);
        pipe3.Update(delta, draw3);
        lose := Collides(bird.State(), pipe1.State()) || Collides(bird.State(), pipe2.State())
                || Collides(bird.State(), pipe3.State());
      }
    }

    /** The `SDL_PollEvent` loop, with each event already decoded. */
    method HandleEvents(events: seq<Command>) returns (quit: bool)
      requires Valid()
      modifies bird
      ensures State() == Respond(old(State()), events)
      ensures quit <==> Quit in events
    {
      quit := false;
      var i := 0;
      while i < |events|
        invariant 0 <= i <= |events|
        invariant quit <==> Quit in events[..i]
        invariant State() == if !lose && Jump in events[..i] then Jumped(old(State())) else old(State())
      {
        assert events[..i + 1] == events[..i] + [events[i]];
        if events[i] == Quit {
          quit := true;
        }
        if events[i] == Jump && !lose {
          bird.vel := BirdJump;
        }
        i := i + 1;
      }
      assert events[..i] == events;
    }

    /** `while (!quit)` over the frames the host supplies. */
    method Play(frames: seq<Frame>) returns (quit: bool)
      requires Valid()
      modifies this, bird, pipe1, pipe2, pipe3
      ensures Valid()
      ensures State() == Run(old(State()), frames)
      ensures quit <==> exists k :: 0 <= k < |frames| && Quit in frames[k].events
    {
      quit := false;
      var i := 0;
      while !quit && i < |frames|
        invariant 0 <= i <= |frames|
        invariant Valid()
        invariant !quit ==> Run(State(), frames[i..]) == Run(old(State()), frames)
        invariant quit ==> State() == Run(old(State()), frames)
        invariant quit <==> exists k :: 0 <= k < i && Quit in frames[k].events
      {
        assert frames[i..][0] == frames[i] && frames[i..][1..] == frames[i + 1..];
        Tick(frames[i].delta, frames[i].draw1, frames[i].draw2, frames[i].draw3);
        quit := HandleEvents(frames[i].events);
        i := i + 1;
      }
    }
  }
}
