// The decisions Engine::processInput takes from one frame's input: where the
// player goes, how each difficulty button is drawn and whether it was
// clicked, how the player is kept on the field, and how the pillars are
// tinted by the collision check.
module Controls {
  import opened Geometry

  datatype Option<T> = None | Some(value: T)

  /** The player is a 10 x 10 white square. */
  const PlayerSize: real := 10.0

  /** The three buttons, 100 x 50, at height/2; the easy button's x is
      width/3 in unsigned integer division (266), the hard one's width/1.5. */
  const EasyButton: Box := Box((Width / 3) as real, (Height / 2) as real, 100.0, 50.0, OriginalFill)
  const MediumButton: Box := Box((Width / 2) as real, (Height / 2) as real, 100.0, 50.0, OriginalFill)
  const HardButton: Box := Box(Width as real / 1.5, (Height / 2) as real, 100.0, 50.0, OriginalFill)

  /** Pixels per frame the pillars move at each difficulty. */
  const EasySpeed: real := 2.0
  const MediumSpeed: real := 5.0
  const HardSpeed: real := 10.0

  predicate IsSpeedSetting(s: real)
  {
    s == EasySpeed || s == MediumSpeed || s == HardSpeed
  }

  /** The player moved to the cursor; the window's y axis points down and
      the field's up, so the y coordinate is inverted. */
  function Cursor(cursorX: real, cursorY: real): (p: Box)
    ensures p.w == PlayerSize && p.h == PlayerSize && p.fill == White
    ensures p.x == cursorX && p.y + cursorY == Height as real
  {
    Box(cursorX, Height as real - cursorY, PlayerSize, PlayerSize, White)
  }

  /** A button's fill: pressed while held over it, hovered while over it,
      original otherwise. */
  function ButtonFill(pressed: bool, hovered: bool): (c: Color)
    ensures c == PressFill <==> pressed && hovered
    ensures c == HoverFill <==> !pressed && hovered
    ensures c == OriginalFill <==> !hovered
  {
    if pressed && hovered then PressFill
    else if hovered then HoverFill
    else OriginalFill
  }

  /** The speed a release-click selects, if any: the button was held last
      frame, is up now, and the player is over a button; the buttons are
      tried easy, medium, hard. */
  function Selected(pressedLastFrame: bool, pressed: bool, p: Box): (r: Option<real>)
    ensures r.Some? <==> pressedLastFrame && !pressed
                         && (Overlaps(EasyButton, p) || Overlaps(MediumButton, p) || Overlaps(HardButton, p))
    ensures r.Some? ==> IsSpeedSetting(r.value)
    ensures r == Some(EasySpeed) <==> pressedLastFrame && !pressed && Overlaps(EasyButton, p)
    ensures r == Some(MediumSpeed) <==> pressedLastFrame && !pressed
                                        && !Overlaps(EasyButton, p) && Overlaps(MediumButton, p)
    ensures r == Some(HardSpeed) <==> pressedLastFrame && !pressed
                                      && !Overlaps(EasyButton, p) && !Overlaps(MediumButton, p) && Overlaps(HardButton, p)
  {
    if !(pressedLastFrame && !pressed) then None
    else if Overlaps(EasyButton, p) then Some(EasySpeed)
    else if Overlaps(MediumButton, p) then Some(MediumSpeed)
    else if Overlaps(HardButton, p) then Some(HardSpeed)
    else None
  }

  /** No box as narrow as the player is over two buttons at once, so the
      easy-first order never has to break a tie. */
  lemma ButtonsDisjoint(p: Box)
    requires 0.0 <= p.w <= PlayerSize
    ensures !(Overlaps(EasyButton, p) && Overlaps(MediumButton, p))
    ensures !(Overlaps(MediumButton, p) && Overlaps(HardButton, p))
    ensures !(Overlaps(EasyButton, p) && Overlaps(HardButton, p))
  {
  }

  /** The clamp, as four checks in order: top, bottom, left, right. Each
      moves the CENTRE onto the bound, so a clamped player can stick out of
      the field by half its size. */
  function Clamped(p: Box): (r: Box)
    ensures r == p.(x := r.x, y := r.y)
    ensures r.x == p.x || r.x == 0.0 || r.x == Width as real
    ensures r.y == p.y || r.y == 0.0 || r.y == Height as real
    ensures p.w >= 0.0 ==> 0.0 <= r.x <= Width as real
    ensures p.h >= 0.0 ==> 0.0 <= r.y <= Height as real
    ensures 0.0 < Left(p) && Right(p) < Width as real ==> r.x == p.x
    ensures 0.0 < Bottom(p) && Top(p) < Height as real ==> r.y == p.y
    ensures 0.0 <= p.h < 2.0 * Height as real && Top(p) >= Height as real ==> r.y == Height as real
    ensures Top(p) < Height as real && Bottom(p) <= 0.0 ==> r.y == 0.0
    ensures 0.0 <= p.w < 2.0 * Width as real && Left(p) <= 0.0 ==> r.x == 0.0
    ensures 0.0 < Left(p) && Right(p) >= Width as real ==> r.x == Width as real
  {
    var top := if Top(p) >= Height as real then p.(y := Height as real) else p;
    var bottom := if Bottom(top) <= 0.0 then top.(y := 0.0) else top;
    var left := if Left(bottom) <= 0.0 then bottom.(x := 0.0) else bottom;
    if Right(left) >= Width as real then left.(x := Width as real) else left
  }

  /** Clamping a clamped player changes nothing. */
  lemma ClampIdempotent(p: Box)
    requires 0.0 <= p.w < 2.0 * Width as real && 0.0 <= p.h < 2.0 * Height as real
    ensures Clamped(Clamped(p)) == Clamped(p)
  {
  }

  /** A player pushed over the top edge ends with its centre on the edge,
      half outside the field, not with its top on the edge. */
  lemma ClampPinsCentre(p: Box)
    requires p.w == PlayerSize && p.h == PlayerSize
    requires Top(p) >= Height as real && 0.0 < Left(p) && Right(p) < Width as real
    ensures Clamped(p).y == Height as real && Top(Clamped(p)) == Height as real + PlayerSize / 2.0
  {
  }

  /** A pillar after the collision check: gray unless it overlaps the player. */
  function Tinted(b: Box, p: Box): (r: Box)
    ensures r == b.(fill := r.fill)
    ensures Overlaps(b, p) ==> r == b
    ensures !Overlaps(b, p) ==> r.fill == Gray
  {
    if Overlaps(b, p) then b else b.(fill := Gray)
  }

  /** A lane after the collision check: only fills change, every pillar
      clear of the player is gray, and every pillar touching it is as it was. */
  function Recoloured(lane: seq<Box>, p: Box): (r: seq<Box>)
    ensures |r| == |lane|
    ensures forall i :: 0 <= i < |lane| ==> r[i] == lane[i].(fill := r[i].fill)
    ensures forall i :: 0 <= i < |lane| && !Overlaps(lane[i], p) ==> r[i].fill == Gray
    ensures forall i :: 0 <= i < |lane| && Overlaps(lane[i], p) ==> r[i] == lane[i]
  {
    seq(|lane|, i requires 0 <= i < |lane| => Tinted(lane[i], p))
  }

  /** Some pillar of the lane overlaps the player. */
  predicate Hits(lane: seq<Box>, p: Box)
  {
    exists i :: 0 <= i < |lane| && Overlaps(lane[i], p)
  }
}
