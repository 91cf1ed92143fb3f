// The Start / Play / Over state machine that Engine::processInput drives.
//
// Within one call the screen can take three steps in this order: the R-key
// reset (Over to Start), a button release-click (Start to Play) and the
// collision check (Play to Over).
module Screens {

  datatype Screen = Start | Play | Over

  /** The moves the game allows: staying, or one step round the cycle. */
  predicate Edge(a: Screen, b: Screen)
  {
    a == b || (a == Start && b == Play) || (a == Play && b == Over) || (a == Over && b == Start)
  }

  /** The R key returns from Over to Start. */
  function AfterReset(s: Screen, rKey: bool): (t: Screen)
    ensures Edge(s, t)
    ensures t != s <==> rKey && s == Over
  {
    if rKey && s == Over then Start else s
  }

  /** A button release-click starts play from Start. */
  function AfterClick(s: Screen, clicked: bool): (t: Screen)
    ensures Edge(s, t)
    ensures t != s <==> clicked && s == Start
  {
    if clicked && s == Start then Play else s
  }

  /** Touching a pillar during play ends the game. */
  function AfterCollision(s: Screen, hit: bool): (t: Screen)
    ensures Edge(s, t)
    ensures t != s <==> hit && s == Play
  {
    if s == Play && hit then Over else s
  }

  /** The screen after one call of the input step. */
  function AfterInput(s: Screen, rKey: bool, clicked: bool, hit: bool): Screen
  {
    AfterCollision(AfterClick(AfterReset(s, rKey), clicked), hit)
  }

  /** Over is left only by the R key; Play is entered only by a click; Start
      is reached only from Start or by a reset. */
  lemma InputTransitions(s: Screen, rKey: bool, clicked: bool, hit: bool)
    ensures s == Over && !rKey ==> AfterInput(s, rKey, clicked, hit) == Over
    ensures AfterInput(s, rKey, clicked, hit) == Play ==> !hit && (s == Play || clicked)
    ensures AfterInput(s, rKey, clicked, hit) == Start ==> !clicked && (s == Start || (s == Over && rKey))
    ensures s == Play ==> AfterInput(s, rKey, clicked, hit) == (if hit then Over else Play)
  {
  }
}
