// The pillars that Engine::initShapes lays out, and the pairing invariant
// between the near (ground-up) and far (top-down) lane.
//
// The builder places pairs left to right from x = 800 while the accumulated
// width is below the window width plus 50; each pair adds 25 + 300 to it.
// The k-th call of rand() gives the k-th pair's height `roll % 500 + 40`.
module Level {
  import opened Geometry
  import opened Lanes

  const PillarWidth: int := 25
  /** Width added to the accumulator per pair: pillar plus gap. */
  const PairStride: int := 325
  /** The accumulator bound: window width plus 50. */
  const BuildLimit: int := 850
  /** Pairs the builder lays out for an 800-wide window. */
  const LevelPairs: nat := 3
  /** Vertical gap between a near pillar's top and its far pillar's bottom. */
  const GapHeight: real := 40.0

  /** The near pillar's height for one rand() value. */
  function PillarHeight(roll: nat): (h: int)
    ensures 40 <= h <= 539
  {
    roll % 500 + 40
  }

  /** The near pillar at accumulated width `offset`: standing on the ground. */
  function NearPillar(offset: int, roll: nat): Box
  {
    var h := PillarHeight(roll) as real;
    Box(offset as real + PillarWidth as real / 2.0 + 800.0, h / 2.0, PillarWidth as real, h, BrickRed)
  }

  /** The far pillar paired with it: 600 taller, hanging from 40 above. */
  function FarPillar(offset: int, roll: nat): Box
  {
    var h := PillarHeight(roll);
    var fh := (h + 600) as real;
    Box(offset as real + PillarWidth as real / 2.0 + 800.0, fh / 2.0 + (h + 40) as real, PillarWidth as real, fh, BrickRed)
  }

  /** The first k near pillars of a build. */
  function NearLevel(rand: nat -> nat, k: nat): (r: seq<Box>)
    ensures |r| == k
  {
    if k == 0 then [] else NearLevel(rand, k - 1) + [NearPillar(PairStride * (k - 1), rand(k - 1))]
  }

  /** The first k far pillars of a build. */
  function FarLevel(rand: nat -> nat, k: nat): (r: seq<Box>)
    ensures |r| == k
  {
    if k == 0 then [] else FarLevel(rand, k - 1) + [FarPillar(PairStride * (k - 1), rand(k - 1))]
  }

  /** The j-th pair of a build sits at accumulated width 325 j and takes the
      j-th rand() value. */
  lemma {:induction false} LevelAt(rand: nat -> nat, k: nat, j: nat)
    requires j < k
    ensures NearLevel(rand, k)[j] == NearPillar(PairStride * j, rand(j))
    ensures FarLevel(rand, k)[j] == FarPillar(PairStride * j, rand(j))
  {
    if j < k - 1 {
      LevelAt(rand, k - 1, j);
    }
  }

  /** What holds of a near pillar and its far partner at every frame. */
  predicate Paired(n: Box, f: Box)
  {
    n.w == PillarWidth as real && f.w == n.w && f.x == n.x &&
    40.0 <= n.h <= 539.0 && n.y == n.h / 2.0 &&
    f.h == n.h + 600.0 &&
    Bottom(f) == Top(n) + GapHeight
  }

  predicate PairedLanes(near: seq<Box>, far: seq<Box>)
  {
    |near| == |far| && forall i :: 0 <= i < |near| ==> Paired(near[i], far[i])
  }

  /** Each pair the builder makes satisfies the pairing invariant. */
  lemma BuiltPairIsPaired(offset: int, roll: nat)
    ensures Paired(NearPillar(offset, roll), FarPillar(offset, roll))
  {
  }

  /** The geometry of a fresh build: three pairs, each near pillar 25 wide,
      40 to 539 tall and resting on the ground, its far partner 600 taller
      with its bottom 40 above the near top, the first pair at x = 812.5 and
      the next ones 325 further each. */
  lemma LevelGeometry(rand: nat -> nat)
    ensures PairedLanes(NearLevel(rand, LevelPairs), FarLevel(rand, LevelPairs))
    ensures NearLevel(rand, LevelPairs)[0].x == 812.5
    ensures forall i :: 0 < i < LevelPairs ==> NearLevel(rand, LevelPairs)[i].x - NearLevel(rand, LevelPairs)[i - 1].x == PairStride as real
    ensures forall i :: 0 <= i < LevelPairs ==> NearLevel(rand, LevelPairs)[i].h == PillarHeight(rand(i)) as real
  {
  }

  /** A frame of scrolling keeps the lanes paired: equal lengths, the same
      sizes and heights, and pairs still at equal x. */
  lemma ScrollKeepsPairs(near: seq<Box>, far: seq<Box>, speed: real)
    requires PairedLanes(near, far)
    ensures PairedLanes(Scroll(near, speed), Scroll(far, speed))
    ensures RecycleCount(near, speed, |near|) == RecycleCount(far, speed, |far|)
  {
    ScrollKeepsShape(near, speed);
    ScrollKeepsShape(far, speed);
    ScrollInSync(near, far, speed);
  }

  /** The 40-pixel gap lets a 10 x 10 player through: a player centred in the
      gap of a pair touches neither pillar. */
  lemma GapIsPassable(n: Box, f: Box, p: Box)
    requires Paired(n, f)
    requires p.w == 10.0 && p.h == 10.0 && p.y == Top(n) + GapHeight / 2.0
    ensures !Overlaps(n, p) && !Overlaps(f, p)
  {
  }
}
