// The game engine's state and its per-frame steps (src/engine.cpp), without
// the window, shaders, fonts and decorations.
//
// `screen`, `score` and `moveSpeed` are file-scope globals in the engine;
// here they are fields of the one `Game`. The input a frame polls from the
// window (cursor position in window coordinates, the left button, the R key)
// comes in as parameters, and the values rand() would return during a level
// build come in as `rand`, the k-th call's value at k.
module Engine {
  import opened Geometry
  import opened Lanes
  import opened Level
  import opened Controls
  import opened Screens

  class Game {
    var screen: Screen
    var score: int
    var moveSpeed: real
    var mousePressedLastFrame: bool
    var player: Box
    var easy: Box
    var medium: Box
    var hard: Box
    /** The ground-up pillars (buildings1). */
    var near: seq<Box>
    /** The top-down pillars (buildings2), index-paired with `near`. */
    var far: seq<Box>

    /** What every step keeps: the player is the white 10 x 10 square, the
        buttons only change fill, the lanes stay paired, the score is not
        negative and play always runs at one of the three speeds. */
    ghost predicate Valid()
      reads this
    {
      score >= 0 &&
      (screen == Play ==> IsSpeedSetting(moveSpeed)) &&
      player.w == PlayerSize && player.h == PlayerSize && player.fill == White &&
      easy == EasyButton.(fill := easy.fill) &&
      medium == MediumButton.(fill := medium.fill) &&
      hard == HardButton.(fill := hard.fill) &&
      PairedLanes(near, far)
    }

    /** Start screen, score 0, speed 0 (the globals' static initial values),
        button not held, and a fresh level. */
    constructor (rand: nat -> nat)
      ensures Valid()
      ensures screen == Start && score == 0 && moveSpeed == 0.0 && !mousePressedLastFrame
      ensures near == NearLevel(rand, LevelPairs) && far == FarLevel(rand, LevelPairs)
      ensures player == Box(0.0, 0.0, PlayerSize, PlayerSize, White)
      ensures easy == EasyButton && medium == MediumButton && hard == HardButton
    {
      screen := Start;
      score := 0;
      moveSpeed := 0.0;
      mousePressedLastFrame := false;
      player := Box(0.0, 0.0, PlayerSize, PlayerSize, White);
      easy, medium, hard := EasyButton, MediumButton, HardButton;
      near, far := [], [];
      new;
      InitShapes(rand);
      LevelGeometry(rand);
    }

    /** Puts the player at the origin, restores the buttons, and appends one
        level's pillars to both lanes: pairs are added while the accumulated
        width is below 850, which gives three pairs. */
    method InitShapes(rand: nat -> nat)
      modifies this`player, this`easy, this`medium, this`hard, this`near, this`far
      ensures player == Box(0.0, 0.0, PlayerSize, PlayerSize, White)
      ensures easy == EasyButton && medium == MediumButton && hard == HardButton
      ensures near == old(near) + NearLevel(rand, LevelPairs)
      ensures far == old(far) + FarLevel(rand, LevelPairs)
    {
      player := Box(0.0, 0.0, PlayerSize, PlayerSize, White);
      easy := EasyButton;
      medium := MediumButton;
      hard := HardButton;

      var totalBuildingWidth := 0;
      var k: nat := 0;
      while totalBuildingWidth < Width + 50
        invariant totalBuildingWidth == PairStride * k
        invariant k <= LevelPairs
        invariant player == Box(0.0, 0.0, PlayerSize, PlayerSize, White)
        invariant easy == EasyButton && medium == MediumButton && hard == HardButton
        invariant near == old(near) + NearLevel(rand, k)
        invariant far == old(far) + FarLevel(rand, k)
      {
        near := near + [NearPillar(totalBuildingWidth, rand(k))];
        far := far + [FarPillar(totalBuildingWidth, rand(k))];
        totalBuildingWidth := totalBuildingWidth + PillarWidth + 300;
        k := k + 1;
      }
    }

    /** The R-key reset: score 0, both lanes cleared and rebuilt, back to the
        start screen; the speed is kept. */
    method Reset(rand: nat -> nat)
      requires Valid()
      modifies this
      ensures Valid()
      ensures screen == Start && score == 0
      ensures near == NearLevel(rand, LevelPairs) && far == FarLevel(rand, LevelPairs)
      ensures moveSpeed == old(moveSpeed) && mousePressedLastFrame == old(mousePressedLastFrame)
      ensures player == Box(0.0, 0.0, PlayerSize, PlayerSize, White)
      ensures easy == EasyButton && medium == MediumButton && hard == HardButton
    {
      score := 0;
      near := [];
      far := [];
      InitShapes(rand);
      screen := Start;
      assert near == NearLevel(rand, LevelPairs) && far == FarLevel(rand, LevelPairs);
      LevelGeometry(rand);
    }

    /** The collision check: in play, every pillar of either lane that
        overlaps the player ends the game, and every other one turns gray;
        in any other screen nothing happens. */
    method CheckCollisions()
      modifies this`near, this`far, this`screen
      ensures old(screen) == Play ==> near == Recoloured(old(near), player) && far == Recoloured(old(far), player)
      ensures old(screen) != Play ==> near == old(near) && far == old(far)
      ensures screen == AfterCollision(old(screen), Hits(old(near), player) || Hits(old(far), player))
    {
      if screen == Play {
        var i := 0;
        while i < |near|
          invariant 0 <= i <= |near| == |old(near)|
          invariant far == old(far)
          invariant forall j :: 0 <= j < i ==> near[j] == Tinted(old(near)[j], player)
          invariant forall j :: i <= j < |near| ==> near[j] == old(near)[j]
          invariant screen == (if Hits(old(near)[..i], player) then Over else Play)
        {
          assert old(near)[..i + 1] == old(near)[..i] + [near[i]];
          if Overlaps(near[i], player) {
            screen := Over;
          } else {
            near := near[i := near[i].(fill := Gray)];
          }
          i := i + 1;
        }
        assert old(near)[..i] == old(near);
        assert near == Recoloured(old(near), player);
        ghost var hitNear := Hits(old(near), player);

        i := 0;
        while i < |far|
          invariant 0 <= i <= |far| == |old(far)|
          invariant near == Recoloured(old(near), player)
          invariant forall j :: 0 <= j < i ==> far[j] == Tinted(old(far)[j], player)
          invariant forall j :: i <= j < |far| ==> far[j] == old(far)[j]
          invariant screen == (if hitNear || Hits(old(far)[..i], player) then Over else Play)
        {
          assert old(far)[..i + 1] == old(far)[..i] + [far[i]];
          if Overlaps(far[i], player) {
            screen := Over;
          } else {
            far := far[i := far[i].(fill := Gray)];
          }
          i := i + 1;
        }
        assert old(far)[..i] == old(far);
        assert far == Recoloured(old(far), player);
      }
    }

    /** The three difficulty buttons, easy, medium, hard in turn: each is
        tinted by hover and press, and a release-click over it on the start
        screen sets its speed and starts play. Once one has fired the screen
        is no longer Start, so the later ones cannot. The button state is
        then kept for the next frame. */
    method PressButtons(pressed: bool)
      requires Valid()
      modifies this`easy, this`medium, this`hard, this`moveSpeed, this`screen, this`mousePressedLastFrame
      ensures Valid()
      ensures easy.fill == ButtonFill(pressed, Overlaps(EasyButton, player))
      ensures medium.fill == ButtonFill(pressed, Overlaps(MediumButton, player))
      ensures hard.fill == ButtonFill(pressed, Overlaps(HardButton, player))
      ensures var choice := Selected(old(mousePressedLastFrame), pressed, player);
              screen == AfterClick(old(screen), choice.Some?) &&
              moveSpeed == (if old(screen) == Start && choice.Some? then choice.value else old(moveSpeed))
      ensures mousePressedLastFrame == pressed
    {
      var hovered := Overlaps(easy, player);
      easy := easy.(fill := ButtonFill(pressed, hovered));
      if mousePressedLastFrame && !pressed && hovered && screen == Start {
        moveSpeed := EasySpeed;
        screen := Play;
      }
      hovered := Overlaps(medium, player);
      medium := medium.(fill := ButtonFill(pressed, hovered));
      if mousePressedLastFrame && !pressed && hovered && screen == Start {
        moveSpeed := MediumSpeed;
        screen := Play;
      }
      hovered := Overlaps(hard, player);
      hard := hard.(fill := ButtonFill(pressed, hovered));
      if mousePressedLastFrame && !pressed && hovered && screen == Start {
        moveSpeed := HardSpeed;
        screen := Play;
      }
      mousePressedLastFrame := pressed;
    }

    /** Keeps the player on the field, one edge at a time. */
    method ClampPlayer()
      modifies this`player
      ensures player == Clamped(old(player))
    {
      if Top(player) >= Height as real {
        player := player.(y := Height as real);
      }
      if Bottom(player) <= 0.0 {
        player := player.(y := 0.0);
      }
      if Left(player) <= 0.0 {
        player := player.(x := 0.0);
      }
      if Right(player) >= Width as real {
        player := player.(x := Width as real);
      }
    }

    /** One frame's input: reset, follow the cursor, the three difficulty
        buttons, clamping, and the collision check. */
    method ProcessInput(cursorX: real, cursorY: real, pressed: bool, rKey: bool, rand: nat -> nat)
      requires Valid()
      modifies this
      ensures Valid()
      ensures player == Clamped(Cursor(cursorX, cursorY))
      ensures mousePressedLastFrame == pressed
      ensures easy.fill == ButtonFill(pressed, Overlaps(EasyButton, Cursor(cursorX, cursorY)))
      ensures medium.fill == ButtonFill(pressed, Overlaps(MediumButton, Cursor(cursorX, cursorY)))
      ensures hard.fill == ButtonFill(pressed, Overlaps(HardButton, Cursor(cursorX, cursorY)))
      ensures score == if rKey && old(screen) == Over then 0 else old(score)
      ensures var choice := Selected(old(mousePressedLastFrame), pressed, Cursor(cursorX, cursorY));
              moveSpeed == if AfterReset(old(screen), rKey) == Start && choice.Some? then choice.value else old(moveSpeed)
      ensures var choice := Selected(old(mousePressedLastFrame), pressed, Cursor(cursorX, cursorY));
              var nearShown := if rKey && old(screen) == Over then NearLevel(rand, LevelPairs) else old(near);
              var farShown := if rKey && old(screen) == Over then FarLevel(rand, LevelPairs) else old(far);
              screen == AfterInput(old(screen), rKey, choice.Some?, Hits(nearShown, player) || Hits(farShown, player)) &&
              near == (if AfterClick(AfterReset(old(screen), rKey), choice.Some?) == Play then Recoloured(nearShown, player) else nearShown) &&
              far == (if AfterClick(AfterReset(old(screen), rKey), choice.Some?) == Play then Recoloured(farShown, player) else farShown)
    {
      if rKey && screen == Over {
        Reset(rand);
      }

      // Invert the window's y axis to the field's.
      var mouseY := Height as real - cursorY;
      player := player.(x := cursorX, y := mouseY);
      assert player == Cursor(cursorX, cursorY);

      PressButtons(pressed);
      ClampPlayer();
      CheckCollisions();
    }

    /** Moves every near pillar left by the speed, in index order and in
        place, recycling each one that went off-screen and scoring a point
        for it. */
    method ScrollNear()
      modifies this`near, this`score
      ensures near == Scroll(old(near), moveSpeed)
      ensures score == old(score) + RecycleCount(old(near), moveSpeed, |old(near)|)
    {
      var i := 0;
      while i < |near|
        invariant 0 <= i <= |near| == |old(near)|
        invariant near[..i] == Scrolled(old(near), moveSpeed, i)
        invariant forall j :: i <= j < |near| ==> near[j] == old(near)[j]
        invariant score == old(score) + RecycleCount(old(near), moveSpeed, i)
      {
        ghost var done := near[..i];
        ghost var left := NeighbourAsRead(old(near), moveSpeed, done, i);
        assert i > 0 ==> near[i - 1] == done[i - 1];
        near := near[i := Moved(near[i], moveSpeed)];
        if OffScreen(near[i]) {
          score := score + 1;
          var buildingOnLeft := LeftIndex(|near|, i);
          assert near[buildingOnLeft] == left;
          near := near[i := PlacedAfter(near[i], near[buildingOnLeft])];
        }
        assert near[..i + 1] == done + [near[i]];
        i := i + 1;
      }
      assert near == near[..|near|];
    }

    /** The same for the far lane, which never scores. */
    method ScrollFar()
      modifies this`far
      ensures far == Scroll(old(far), moveSpeed)
    {
      var i := 0;
      while i < |far|
        invariant 0 <= i <= |far| == |old(far)|
        invariant far[..i] == Scrolled(old(far), moveSpeed, i)
        invariant forall j :: i <= j < |far| ==> far[j] == old(far)[j]
      {
        ghost var done := far[..i];
        ghost var left := NeighbourAsRead(old(far), moveSpeed, done, i);
        assert i > 0 ==> far[i - 1] == done[i - 1];
        far := far[i := Moved(far[i], moveSpeed)];
        if OffScreen(far[i]) {
          var buildingOnLeft := LeftIndex(|far|, i);
          assert far[buildingOnLeft] == left;
          far := far[i := PlacedAfter(far[i], far[buildingOnLeft])];
        }
        assert far[..i + 1] == done + [far[i]];
        i := i + 1;
      }
      assert far == far[..|far|];
    }

    /** One frame of simulation: in play, both lanes scroll by the speed and
        every near-lane recycle scores a point; otherwise nothing changes. */
    method Update()
      requires Valid()
      modifies this`near, this`far, this`score
      ensures Valid()
      ensures old(screen) == Play ==> near == Scroll(old(near), moveSpeed) && far == Scroll(old(far), moveSpeed)
      ensures old(screen) == Play ==> score == old(score) + RecycleCount(old(near), moveSpeed, |old(near)|)
      ensures old(screen) != Play ==> near == old(near) && far == old(far) && score == old(score)
    {
      if screen == Play {
        ScrollNear();
        ScrollFar();
        ScrollKeepsPairs(old(near), old(far), moveSpeed);
      }
    }

    /** One turn of the game loop: input, then simulation. */
    method Frame(cursorX: real, cursorY: real, pressed: bool, rKey: bool, rand: nat -> nat)
      requires Valid()
      modifies this
      ensures Valid()
      ensures old(screen) == Over && !rKey ==> screen == Over && score == old(score) && near == old(near) && far == old(far)
      ensures screen == Play ==> old(screen) == Play || Selected(old(mousePressedLastFrame), pressed, Cursor(cursorX, cursorY)).Some?
      ensures screen == Start ==> old(screen) == Start || (old(screen) == Over && rKey)
      ensures score >= old(score) || (rKey && old(screen) == Over)
      ensures player == Clamped(Cursor(cursorX, cursorY)) && mousePressedLastFrame == pressed
      ensures easy.fill == ButtonFill(pressed, Overlaps(EasyButton, Cursor(cursorX, cursorY)))
      ensures medium.fill == ButtonFill(pressed, Overlaps(MediumButton, Cursor(cursorX, cursorY)))
      ensures hard.fill == ButtonFill(pressed, Overlaps(HardButton, Cursor(cursorX, cursorY)))
      ensures var choice := Selected(old(mousePressedLastFrame), pressed, Cursor(cursorX, cursorY));
              moveSpeed == if AfterReset(old(screen), rKey) == Start && choice.Some? then choice.value else old(moveSpeed)
      ensures old(screen) == Play ==> (screen == Over <==> Hits(old(near), player) || Hits(old(far), player))
      ensures var choice := Selected(old(mousePressedLastFrame), pressed, Cursor(cursorX, cursorY));
              var reset := rKey && old(screen) == Over;
              var nearShown := if reset then NearLevel(rand, LevelPairs) else old(near);
              var farShown := if reset then FarLevel(rand, LevelPairs) else old(far);
              var tinted := AfterClick(AfterReset(old(screen), rKey), choice.Some?) == Play;
              var nearIn := if tinted then Recoloured(nearShown, player) else nearShown;
              var farIn := if tinted then Recoloured(farShown, player) else farShown;
              var scoreIn := if reset then 0 else old(score);
              screen == AfterInput(old(screen), rKey, choice.Some?, Hits(nearShown, player) || Hits(farShown, player)) &&
              (screen == Play ==> near == Scroll(nearIn, moveSpeed) && far == Scroll(farIn, moveSpeed)
                                  && score == scoreIn + RecycleCount(nearIn, moveSpeed, |nearIn|)) &&
              (screen != Play ==> near == nearIn && far == farIn && score == scoreIn)
    {
      ProcessInput(cursorX, cursorY, pressed, rKey, rand);
      Update();
    }
  }
}
