# Pillar Dodge: a Dafny model of the game logic

Pillar Dodge is a small 2D arcade game. The player steers a white square with
the mouse through a gap between pairs of pillars that scroll in from the
right. This project models the game logic in `src/engine.cpp` with the
window, shader, font and decoration code taken out:

- the level builder (`Engine::initShapes`), which lays out index-paired
  ground-up (near, `buildings1`) and top-down (far, `buildings2`) pillars;
- the input step (`Engine::processInput`), which runs five stages in order:
  the R-key reset, following the cursor, the three difficulty buttons,
  clamping the player to the field, and the collision check;
- the simulation step (`Engine::update`), which moves every pillar left,
  recycles the ones that went off-screen behind their left neighbour, and
  scores one point per near-lane recycle;
- the Start / Play / Over screen machine that ties them together.

Modules:

- `Geometry` (geometry.dfy): boxes, their edges and the overlap test.
- `Lanes` (lanes.dfy): one lane's frame of scrolling as a reference function
  `Scrolled`, built index by index in the loop's order, and lemmas about it.
- `Level` (level.dfy): the built pillars and the pairing invariant `Paired`.
- `Controls` (controls.dfy): cursor, button tint and click, clamp, and the
  collision tint.
- `Screens` (screens.dfy): the screen type and its three transitions.
- `Engine` (engine.dfy): class `Game`, which holds the engine's state. Its
  methods run the engine's loops and updates in place, and each one is
  proved against the functions above. The constructor, `Reset`,
  `PressButtons`, `ProcessInput`, `Update` and `Frame` also keep the
  invariant `Valid()`.

The file-scope globals `screen`, `score` and `moveSpeed` become fields of
`Game`. Their initial values are the static zero values: Start, 0 and 0.0.
Each frame's input comes in as parameters: the cursor in window coordinates,
the left button and the R key. The model inverts the cursor's y itself. The
values `rand()` returns during one level build come in as `rand: nat -> nat`,
where `rand(k)` is the k-th call.

Assumptions about files that are not part of this model:

- `shapes/shape.h` and `shapes/rect.h` (edges, `isOverlapping`, setters) are
  not part of this model. The edges are taken as centre ± half the size.
  Overlap is taken as the strict axis-aligned test, so touching edges do not
  overlap.
- The comparison `buildings1[i] == buildings1[0]` compares
  `unique_ptr`s. Each element owns its own pillar, so the comparison is true
  exactly when i == 0. `Lanes.LeftIndex` states it that way.
- The engine calls `glfwGetMouseButton` once per button, three times a
  frame. GLFW answers all three from the state polled at the start of the
  frame, so the model reads the button once.
- The per-frame order is input first, then update. `main` is not part of
  this model.

Two details of the code that the model keeps as written:

- The clamp moves the player's centre, not its edge, onto the bound. A player
  pushed past the top ends with its centre at y = 600, half outside the
  field. A player whose centre is within 5 of an edge jumps onto that edge.
  `Controls.Clamped` states this for all four edges, and
  `Controls.ClampPinsCentre` shows the top edge case.
- The easy button's x is `width/3` in unsigned integer division, which is
  266, not 266.67.

## Model

| member | source | states |
|---|---|---|
| `Geometry.OverlapsSymmetric` | src/engine.cpp:168 | the overlap test `Geometry.Overlaps` (the assumed strict `isOverlapping`) is symmetric: hovering is the same whether the button is checked against the player or the reverse |
| `Geometry.SameCentreOverlaps` | src/engine.cpp:250 | two boxes of positive size with the same centre always overlap |
| `Geometry.SeparatedDoNotOverlap` | src/engine.cpp:250 | boxes whose centres are at least the sum of their half-sizes apart on one axis never overlap; touching does not count |
| `Geometry.OverlapsIgnoresFill` | src/engine.cpp:173-182 | tinting a box never changes whether it overlaps |
| `Lanes.LeftIndex` | src/engine.cpp:291 | the neighbour index is in range; it is i-1 for i > 0, and the last index for i = 0 |
| `Lanes.Scrolled` | src/engine.cpp:283-294 | the reference for one frame of a lane, in loop order, has one pillar per index processed |
| `Lanes.Scroll` | src/engine.cpp:283-294 | one whole frame of a lane, as `Scrolled` over every index, keeps the lane's length |
| `Lanes.RecycleCount` | src/engine.cpp:287-288 | at most one recycle per pillar |
| `Lanes.ScrolledPrefix` | src/engine.cpp:283 | stepping later indices never changes pillars already stepped |
| `Lanes.ScrolledKeepsShape` | src/engine.cpp:285-292 | scrolling changes only x: each pillar keeps its y, size and fill |
| `Lanes.ScrollKeepsShape` | src/engine.cpp:283-306 | a whole frame keeps the lane's length and every pillar's y, size and fill |
| `Lanes.ScrollRecycleRule` | src/engine.cpp:285-292 | a pillar whose moved x is not below -w/2 ends at old x minus the speed. Otherwise it ends at neighbour x + neighbour w/2 + own w/2 + 300, exactly 300 past the neighbour's right edge. The neighbour is the already-stepped i-1, or for i = 0 the not-yet-moved last pillar |
| `Lanes.ScrolledInSync` | src/engine.cpp:296-306 | two lanes that agree on every x and width recycle the same number of pillars and still agree on every x after any prefix |
| `Lanes.ScrollInSync` | src/engine.cpp:296-306 | the same for a whole frame: the far lane moves in step with the near lane |
| `Lanes.RecycleCountBounds` | src/engine.cpp:287-288 | no pillar past the edge gives no recycle; all past gives all; any past gives at least one |
| `Lanes.RecycleBoundary` | src/engine.cpp:287 | the test is strict: a pillar whose moved centre is exactly at minus half its width stays, one any further left recycles |
| `Level.PillarHeight` | src/engine.cpp:113 | a near pillar is 40 to 539 tall |
| `Level.NearLevel` | src/engine.cpp:111-119 | k iterations of the build give k near pillars |
| `Level.FarLevel` | src/engine.cpp:120-126 | k iterations of the build give k far pillars |
| `Level.LevelAt` | src/engine.cpp:109-128 | the j-th pair of a build sits at accumulated width 325 j and uses the j-th `rand()` value |
| `Level.BuiltPairIsPaired` | src/engine.cpp:113-126 | every built pair is 25 wide, the near one rests on the ground, and the far one is 600 taller with its bottom 40 above the near top |
| `Level.LevelGeometry` | src/engine.cpp:109-128 | a build gives 3 paired pillars per lane: the first at x = 812.5, each next one 325 further, with heights from `rand()` |
| `Level.ScrollKeepsPairs` | src/engine.cpp:283-306 | a frame of scrolling keeps the lanes paired (equal length, same sizes, far x = near x, 40 gap) and both lanes recycle equally often |
| `Level.GapIsPassable` | src/engine.cpp:125 | a 10 x 10 player centred in a pair's 40-pixel gap touches neither pillar |
| `Controls.Cursor` | src/engine.cpp:161-165 | the player is put at the cursor with y inverted (y + cursor y = 600) and keeps its 10 x 10 white square |
| `Controls.ButtonFill` | src/engine.cpp:173-182 | pressed fill iff held and hovered; hover fill iff hovered and not held; original fill iff not hovered |
| `Controls.Selected` | src/engine.cpp:184-229 | a speed is chosen iff the button was held last frame, is up now, and a button is hovered. Each button gives its own speed: 2 iff easy is hovered, 5 iff medium is hovered and easy is not, 10 iff hard is hovered and neither other button is. The speed is always 2, 5 or 10 |
| `Controls.ButtonsDisjoint` | src/engine.cpp:91-93 | no box as narrow as the player is over two buttons at once |
| `Controls.Clamped` | src/engine.cpp:234-246 | only the centre moves. Each coordinate ends unchanged, on 0 or on the bound, and within [0, 800] x [0, 600]. A box strictly inside the field is untouched. A box whose top reaches 600 gets y = 600; otherwise one whose bottom reaches 0 gets y = 0. A box whose left edge reaches 0 gets x = 0; otherwise one whose right edge reaches 800 gets x = 800. The checks run in that order; the top and left cases hold for any box smaller than twice the field |
| `Controls.ClampIdempotent` | src/engine.cpp:234-246 | clamping a clamped player changes nothing |
| `Controls.ClampPinsCentre` | src/engine.cpp:235-237 | a player pushed past the top ends with its centre at 600 and its top at 605 |
| `Controls.Tinted` | src/engine.cpp:250-254 | a pillar touching the player keeps its fill; any other turns gray; geometry never changes |
| `Controls.Recoloured` | src/engine.cpp:249-264 | the same for every pillar of a lane; the lane keeps its length |
| `Screens.AfterReset` | src/engine.cpp:153-159 | the screen changes iff R is held on the Over screen, and then only to Start |
| `Screens.AfterClick` | src/engine.cpp:184-187 | the screen changes iff a click comes on the Start screen, and then only to Play |
| `Screens.AfterCollision` | src/engine.cpp:248-251 | the screen changes iff a hit comes during Play, and then only to Over |
| `Screens.InputTransitions` | src/engine.cpp:151-265 | the combined screen change `Screens.AfterInput` (reset, then click, then collision) of one input step leaves Over only by R, enters Play only by a click and not on a hit, reaches Start only from Start or by a reset, and ends Play exactly on a hit |
| `Engine.Game.constructor` | src/engine.cpp:29-33 | a new game is on Start with score 0, speed 0, button not held, the player at the origin, the buttons in their original fill, and a fresh 3-pair level |
| `Engine.Game.InitShapes` | src/engine.cpp:85-128 | the player is back at the origin and the buttons are back to their original fill. The loop appends exactly the 3 built pairs to each lane |
| `Engine.Game.Reset` | src/engine.cpp:153-159 | score 0, both lanes replaced by a fresh build, player back at the origin, buttons back to their original fill, screen Start, speed and button memory kept |
| `Engine.Game.PressButtons` | src/engine.cpp:167-232 | each button's fill follows hover and press. The screen and speed change exactly as `Selected` says, and only from Start. The button state is kept for the next frame |
| `Engine.Game.ClampPlayer` | src/engine.cpp:234-246 | the player ends at `Clamped` of where it was |
| `Engine.Game.CheckCollisions` | src/engine.cpp:247-265 | in Play, both lanes are recoloured and the screen becomes Over iff a pillar of either lane touches the player. On any other screen nothing changes |
| `Engine.Game.ProcessInput` | src/engine.cpp:133-267 | the stages compose. The player ends clamped at the cursor. The score is reset only by R on Over. The speed changes only on a click from Start. The screen ends at reset, then click, then collision, with collisions against the lanes as rebuilt |
| `Engine.Game.ScrollNear` | src/engine.cpp:283-294 | the in-place near loop gives `Scroll` of the old lane, and the score rises by its recycle count |
| `Engine.Game.ScrollFar` | src/engine.cpp:296-306 | the in-place far loop gives `Scroll` of the old lane and leaves the score alone |
| `Engine.Game.Update` | src/engine.cpp:269-308 | in Play both lanes scroll and the score rises by exactly the near-lane recycles. Otherwise lanes and score are unchanged. Screen and speed are never touched, and the pairing invariant is kept |
| `Engine.Game.Frame` | src/engine.h:84-90 | input then simulation, composed. The player ends clamped at the cursor, each button's fill follows hover and press, the press is remembered, and the speed follows the click. The screen ends as reset, then click, then collision give it, and a Play frame ends in Over exactly on a hit. If the frame ends in Play, both lanes (after a rebuild and recolouring where due) scroll and the score rises by the near-lane recycles. Otherwise lanes and score are as the input step left them. Over persists without R, Play is entered only by a click, Start is reached only from Start or by R, and the score never drops except through a reset |

## Left out

- Window, OpenGL, shader and font setup (`initWindow`, `initShaders`) and all of `render()`: graphics I/O with no game decisions beyond picking a draw list per screen.
- Key polling over the 1024 GLFW keys, `glfwGetCursorPos` and `glfwGetMouseButton`: replaced by the frame's input parameters. Escape-to-close only closes the window.
- Delta time: computed from the clock each frame and never used.
- Clouds, mountains and grass: cosmetic, and their code lives in `shapes/Cloud.h` and `shapes/triangle.h`, which are not part of this model. A reset re-appends the clouds and mountains without clearing them, so those lists grow with every reset.
- `Rect`/`Shape` internals (overlap, edges, setters): `shapes/rect.h` and `shapes/shape.h` are not part of this model; the edge and overlap definitions above are assumptions.
- Floating point: positions and sizes are `real`, so float rounding (for instance the hard button's x = 533.33) is not modelled.
- `rand()`: its values are supplied. The model does not capture that they come from one global generator shared across builds.
- `cout` logging of the score.
- Engine.Game.Update: the score is an unbounded integer, so the model does not capture a 32-bit `int` overflow after 2^31 recycles.
