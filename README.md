# flappy: a verified model of the simulation step

This project models the simulation core of `flappy.cpp`, a single-file game. A bird falls under
gravity and must fly through a pool of three pipe pairs that scroll left. Each pair is recycled
in place once it leaves the window on the left. Two copies of the background scroll and wrap.
A one-way `lose` flag records the first collision.
The bird keeps falling after a loss; only pipes and backgrounds freeze (flappy.cpp:103-104).

The `float` fields are modelled as `real`, `unsigned`/`unsigned short` as `nat` subset types, and
the value `std::rand()` returns is an explicit `nat` parameter.

Files and modules:

- `config.dfy` (`Config`): the compile-time constants and the `Image` record (x, y, w, h). It
  also spells out the C++ conversions behind the recycling threshold `(int)-WinWidth / 2`. On
  `unsigned` that expression is a wrap-around negation, then a two's-complement cast to `int`,
  then a division that truncates toward zero, and it evaluates to -144.
- `bird.dfy` (`BirdPhysics`): `Bird::update` as the function `Fall`, and the class `Bird` whose
  `Update` method changes its fields in place.
- `pipe.dfy` (`Pipes`): `Pipe::Pipe` and `Pipe::update` as the function `PipeStep` and the class
  `Pipe`. Also the recycled gap position `RecyclePos` and the pair invariant `PipeInv`.
- `collision.dfy` (`Collision`): the `coll` lambda as `Collides`, with its geometric meaning.
- `game.dfy` (`Simulation`): one tick of the loop (`Step`) and the event loop (`Respond`).
  The whole `while (!quit)` loop is `Run`. The class `Game` holds the bird, the three pairs,
  the backgrounds and `lose`, and its `Tick`, `HandleEvents` and `Play` methods are proved
  against those functions.

## Model

| member | source | states |
|---|---|---|
| Config.NegateUnsigned | flappy.cpp:60 | unary minus on a 32-bit unsigned wraps: the result plus the operand is 0 modulo 2^32 |
| Config.AsInt32 | flappy.cpp:60 | the cast to int gives the two's-complement value in [-2^31, 2^31) congruent to the operand modulo 2^32 |
| Config.TruncHalf | flappy.cpp:60 | C++ `/ 2` truncates toward zero: the remainder is in {0, 1} for a non-negative dividend and in {-1, 0} for a negative one |
| Config.RecycleThresholdValue | flappy.cpp:60 | the recycling threshold `(int)-WinWidth / 2` equals -144 |
| BirdPhysics.Fall | flappy.cpp:47-50 | velocity gains 600*delta; y changes by (old vel + 600*delta)*delta, so the new velocity is used; x and size are unchanged; with delta >= 0 the velocity never decreases |
| BirdPhysics.Bird.constructor | flappy.cpp:43-45 | a bird starts with the given image and velocity 0 |
| BirdPhysics.Bird.Update | flappy.cpp:47-50 | the in-place update leaves the bird in the state `Fall` gives |
| Pipes.RecyclePos | flappy.cpp:63 | for every non-negative draw the new gap position is a whole number in [PipeBounds, WinHeight - PipeBounds) = [200, 312) |
| Pipes.RecyclePosCovers | flappy.cpp:63 | every whole position 200 + k with k < 112 is the result of some draw, so the whole range [200, 312) can occur |
| Pipes.PipeStep | flappy.cpp:57-67 | sizes are kept and `up.x == down.x` is preserved. If the shifted x is not below -144, both x drop by exactly 70*delta and both y are kept. Otherwise both x become 288, the gap bottom `up.y` is the position drawn from `std::rand()`, and the opening is exactly PipeSpacing = 100, with its bottom in [200, 312). Afterwards up.x is never below -144 |
| Pipes.PipeStepPreservesInv | flappy.cpp:57-67 | with delta >= 0 an update keeps a pair shaped 52x320, aligned, within [-144, 340], with its initial parked layout or an opening of exactly 100 |
| Pipes.Pipe.constructor | flappy.cpp:56 | the lower pipe is parked at y = WinHeight and the upper one at y = -h |
| Pipes.Pipe.Copy | flappy.cpp:81 | `pipe2 = pipe` copies both images |
| Pipes.Pipe.Update | flappy.cpp:57-67 | the in-place update leaves the pair in the state `PipeStep` gives |
| Collision.Collides | flappy.cpp:87-91 | a bird wholly left or right of the column never collides, whatever its y; a bird wholly inside the opening never collides |
| Collision.CollidesIffSharedPoint | flappy.cpp:87-91 | take a bird box and a column of positive size. `coll` holds exactly when the open bird box shares a point with the column outside the opening. Both directions are proved |
| Collision.AboveWindowCollides | flappy.cpp:87-91 | for every pair satisfying the pair invariant, a bird whose top is above the window and which overlaps the column horizontally collides. This holds even for a parked pair that shows no pipe |
| Simulation.ScrollBackground | flappy.cpp:105-107 | a background x is at least -w afterwards. It drops by 10*delta, or wraps to WinWidth - 1 = 287 when it would pass -w. Its y and size are kept |
| Simulation.Step | flappy.cpp:103-110 | the bird always falls, even after a loss. `lose` afterwards holds exactly when it held before or some pair now collides with the bird. Once lost, pipes and backgrounds are unchanged. Otherwise each pair and background takes one update |
| Simulation.Respond | flappy.cpp:114-119 | after the polled commands, the velocity is -200 whatever it was if a jump came and the game is not lost. Otherwise nothing changes, and nothing else ever changes |
| Simulation.Jumped | flappy.cpp:118 | a jump sets the velocity to -200 and changes nothing else: not the image, not `lose`, not the scenery |
| Simulation.Press | flappy.cpp:115-118 | a quit command, or a jump after a loss, leaves the world unchanged. A jump while not lost sets the velocity to -200. No command changes the image, `lose` or the scenery |
| Simulation.Iterate | flappy.cpp:103-119 | one loop iteration moves the bird as `Fall` does. `lose` afterwards holds exactly when it held before or some pair collides with the bird. A lost game's scenery stays put |
| Simulation.Run | flappy.cpp:96-122 | the loop, stopping after the first frame with a quit command, never clears `lose`. After at least one frame, a collision in the final state implies `lose` |
| Simulation.Initial | flappy.cpp:77-84 | the state set up before the loop is not lost and the bird is at rest. The first pair starts one pipe width in, and the pairs are spaced WinWidth / 2 = 144 apart. All pairs are parked with the lower pipe at WinHeight, and the second background sits one window width right of the first |
| Simulation.InitialInv | flappy.cpp:77-84 | the state `main` sets up satisfies the loop invariant and is not lost |
| Simulation.IteratePreservesInv | flappy.cpp:103-118 | one loop iteration with delta >= 0 keeps the invariant |
| Simulation.RunPreservesInv | flappy.cpp:96-122 | any run of the loop with non-negative deltas keeps the invariant: the bird stays in its column, pairs stay aligned within [-144, 340] with a well-formed opening, and backgrounds stay within [-288, 288] |
| Simulation.LossIsPermanent | flappy.cpp:103-118 | once lost, every later run stays lost and leaves pipes and backgrounds unchanged. Jumps are ignored, and the bird's velocity grows by exactly 600 times the elapsed time |
| Simulation.GravityOnlyAccelerates | flappy.cpp:96-122 | in a run without jumps and with non-negative deltas, the velocity grows by exactly 600 times the elapsed time, so it never decreases |
| Simulation.Game.constructor | flappy.cpp:77-84 | the objects `main` creates hold the initial state: bird at (127, 244), pairs at x = 52, 196, 340, backgrounds at x = 0 and 288, not lost |
| Simulation.Game.Tick | flappy.cpp:103-110 | the in-place tick leaves the game in the state `Step` gives |
| Simulation.Game.HandleEvents | flappy.cpp:114-119 | the event loop leaves the game in the state `Respond` gives, and reports quit exactly when a quit command was polled |
| Simulation.Game.Play | flappy.cpp:96-122 | the main loop leaves the game in the state `Run` gives. It reports quit exactly when some frame carried a quit command |

## Left out

- SDL window, renderer and texture creation, and `IMG_Load` (flappy.cpp:19-23, 72-73, 77-81): foreign library calls. `Image` is a plain record of x, y, w, h.
- Rendering, including the `static_cast<short>` of draw rectangles (flappy.cpp:25-38, 97, 112, 121): output only.
- `SDL_PollEvent` and key decoding (flappy.cpp:114-116): events arrive already decoded as the commands `Jump` and `Quit`. Events that are neither are dropped before the model sees them.
- The `std::chrono` measurement of `delta` (flappy.cpp:95-101): `delta` is a parameter of each frame. `system_clock` is not monotonic, so `Tick` does not require `delta >= 0`. The lemmas that need it say so.
- `std::srand`/`std::rand` (flappy.cpp:63, 75): each pair receives a draw per tick, used only if it is recycled. This covers every sequence the generator can return. `fmod` of a non-negative integer by the whole number 112 is the integer remainder.
- IEEE-754 `float` rounding: all arithmetic is exact `real` arithmetic.
- Shutdown (flappy.cpp:124-125).
