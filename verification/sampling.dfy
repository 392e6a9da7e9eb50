/**
 * How a spawn point is drawn and judged: randBetween, the annulus test of
 * randomizeLocation, the surface placement, locationIsSafe, and the two
 * rejection loops (sample until inside the annulus; sample until safe)
 * as functions over a finite sequence of random draws.
 *
 * Each iteration of the inner loop makes two SecureRandom draws, one for
 * x and one for z; a `Draw` holds that pair. A sequence of draws is a
 * prefix of the random stream. When it is used up before a loop accepts,
 * the functions return None: the source would still be looping.
 */
module Sampling {
  import opened Wrappers
  import opened Host
  import opened SpawnConfig

  /** The raw results of the two `nextInt` calls of one sampling round. */
  type Draw = (int, int)

  /**
   * randBetween(min, max): `random.nextInt(max - min + 1) + min`. The raw
   * draw is any integer; reducing it modulo the range gives every value
   * nextInt may return, and only those.
   */
  function RandBetween(min: int, max: int, draw: int): (r: int)
    requires min <= max
    ensures min <= r <= max
  {
    draw % (max - min + 1) + min
  }

  /** Both ends of the range are reachable: the range is inclusive. */
  lemma RandBetweenIsOnto(min: int, max: int, v: int)
    requires min <= v <= max
    ensures RandBetween(min, max, v - min) == v
  {
  }

  /** The offset (x, z) one round draws: both coordinates from [-max, max]. */
  function Offset(c: Config, d: Draw): (o: (int, int))
    requires 0 <= c.maxDistance
    ensures -c.maxDistance <= o.0 <= c.maxDistance
    ensures -c.maxDistance <= o.1 <= c.maxDistance
  {
    (RandBetween(-c.maxDistance, c.maxDistance, d.0), RandBetween(-c.maxDistance, c.maxDistance, d.1))
  }

  /**
   * `distance <= min` where distance = sqrt(x*x + z*z): never for a
   * negative bound, always at the origin otherwise, and only when each
   * coordinate alone is within the bound.
   */
  predicate NoFartherThan(x: int, z: int, min: int)
    ensures min < 0 ==> !NoFartherThan(x, z, min)
    ensures x == 0 && z == 0 && 0 <= min ==> NoFartherThan(x, z, min)
    ensures NoFartherThan(x, z, min) ==> x * x <= min * min && z * z <= min * min
  {
    0 <= min && x * x + z * z <= min * min
  }

  /**
   * `distance >= max` where distance = sqrt(x*x + z*z): always for a bound
   * of at most 0, and whenever one coordinate alone reaches the bound.
   */
  predicate NoNearerThan(x: int, z: int, max: int)
    ensures max <= 0 ==> NoNearerThan(x, z, max)
    ensures x * x >= max * max || z * z >= max * max ==> NoNearerThan(x, z, max)
  {
    max <= 0 || x * x + z * z >= max * max
  }

  /**
   * The loop condition of randomizeLocation fails: min < distance < max.
   * Only a ring with a positive maximum above the minimum has such points.
   */
  predicate InAnnulus(c: Config, x: int, z: int)
    ensures InAnnulus(c, x, z) ==> 0 < c.maxDistance && c.minDistance < c.maxDistance
    ensures InAnnulus(c, x, z) ==> x * x + z * z < c.maxDistance * c.maxDistance
  {
    var outside := NoFartherThan(x, z, c.minDistance) || NoNearerThan(x, z, c.maxDistance);
    if 0 < c.maxDistance && 0 <= c.minDistance then
      SquareGrows(c.minDistance, c.maxDistance);
      !outside
    else
      !outside
  }

  /** The round's offset lies strictly inside the annulus. */
  predicate Accepts(c: Config, d: Draw)
    requires 0 <= c.maxDistance
  {
    var o := Offset(c, d);
    InAnnulus(c, o.0, o.1)
  }

  /** The point randomizeLocation returns for an accepted offset: moved by the center, one above the surface. */
  function Place(w: World, c: Config, d: Draw): (loc: Location)
    requires 0 <= c.maxDistance
    ensures loc.Block().x - c.centerX == Offset(c, d).0
    ensures loc.Block().z - c.centerZ == Offset(c, d).1
    ensures loc.Block().y == w.highestBlockY(loc.Block().x, loc.Block().z) + 1
  {
    var o := Offset(c, d);
    var x := o.0 + c.centerX;
    var z := o.1 + c.centerZ;
    AtBlock(x, w.highestBlockY(x, z) + 1, z)
  }

  /**
   * locationIsSafe: the block below is not deny-listed and is solid, and
   * neither the block at the location nor the one above it is solid.
   */
  predicate IsSafe(w: World, dangerBlock: seq<string>, loc: Location)
    ensures IsSafe(w, dangerBlock, loc) ==>
      StandingOn(w, loc).solid && StandingOn(w, loc).name !in dangerBlock
  {
    var b := loc.Block();
    var under := w.blockAt(b.x, b.y - 1, b.z);
    var head := w.blockAt(b.x, b.y + 1, b.z);
    && under.name !in dangerBlock
    && under.solid
    && !w.blockAt(b.x, b.y, b.z).solid
    && !head.solid
  }

  /**
   * The inner loop of randomizeLocation: the index of the first round at
   * or after `i` whose offset is inside the annulus, or None when no round
   * left in `draws` is.
   */
  function FirstAccepted(c: Config, draws: seq<Draw>, i: nat): (r: Option<nat>)
    requires 0 <= c.maxDistance
    requires i <= |draws|
    decreases |draws| - i
    ensures r.Some? ==> i <= r.value < |draws|
  {
    if i == |draws| then None
    else if Accepts(c, draws[i]) then Some(i)
    else FirstAccepted(c, draws, i + 1)
  }

  /**
   * FirstAccepted finds the first round inside the annulus: the round it
   * names is accepted and every round before it is rejected; None means
   * every remaining round is rejected.
   */
  lemma {:induction false} FirstAcceptedIsFirst(c: Config, draws: seq<Draw>, i: nat)
    requires 0 <= c.maxDistance
    requires i <= |draws|
    decreases |draws| - i
    ensures var r := FirstAccepted(c, draws, i);
      r.Some? ==> Accepts(c, draws[r.value]) && forall k :: i <= k < r.value ==> !Accepts(c, draws[k])
    ensures FirstAccepted(c, draws, i).None? <==> forall k :: i <= k < |draws| ==> !Accepts(c, draws[k])
  {
    if i < |draws| && !Accepts(c, draws[i]) {
      FirstAcceptedIsFirst(c, draws, i + 1);
    }
  }

  /** A round whose offset is accepted and whose point is safe. */
  predicate SafeRound(w: World, dangerBlock: seq<string>, c: Config, d: Draw)
    requires 0 <= c.maxDistance
  {
    Accepts(c, d) && IsSafe(w, dangerBlock, Place(w, c, d))
  }

  /**
   * What the do-while loop of curateLocation around randomizeLocation
   * finds: the first round at or after `i` that is accepted and whose
   * point is safe, or None when the draws run out first.
   */
  function FirstSafeRound(w: World, dangerBlock: seq<string>, c: Config, draws: seq<Draw>, i: nat): (r: Option<nat>)
    requires 0 <= c.maxDistance
    requires i <= |draws|
    decreases |draws| - i
    ensures r.Some? ==> i <= r.value < |draws|
  {
    if i == |draws| then None
    else if SafeRound(w, dangerBlock, c, draws[i]) then Some(i)
    else FirstSafeRound(w, dangerBlock, c, draws, i + 1)
  }

  /**
   * FirstSafeRound finds the first good round: the round it names is
   * accepted with a safe point and no round before it is; None means no
   * remaining round is.
   */
  lemma {:induction false} FirstSafeRoundIsFirst(w: World, dangerBlock: seq<string>, c: Config, draws: seq<Draw>, i: nat)
    requires 0 <= c.maxDistance
    requires i <= |draws|
    decreases |draws| - i
    ensures var r := FirstSafeRound(w, dangerBlock, c, draws, i);
      r.Some? ==>
        && SafeRound(w, dangerBlock, c, draws[r.value])
        && forall j :: i <= j < r.value ==> !SafeRound(w, dangerBlock, c, draws[j])
    ensures FirstSafeRound(w, dangerBlock, c, draws, i).None? <==>
      forall j :: i <= j < |draws| ==> !SafeRound(w, dangerBlock, c, draws[j])
  {
    if i < |draws| && !SafeRound(w, dangerBlock, c, draws[i]) {
      FirstSafeRoundIsFirst(w, dangerBlock, c, draws, i + 1);
    }
  }

  /**
   * Rounds whose offsets are rejected never reach the safety test: the
   * search for a good round passes over them. This is what lets the
   * nested loops of the source (sample until accepted, then test safety)
   * be read as one search over the rounds.
   */
  lemma {:induction false} RejectedRoundsAreSkipped(w: World, dangerBlock: seq<string>, c: Config, draws: seq<Draw>, i: nat, k: nat)
    requires 0 <= c.maxDistance
    requires i <= k <= |draws|
    requires forall j :: i <= j < k ==> !Accepts(c, draws[j])
    decreases k - i
    ensures FirstSafeRound(w, dangerBlock, c, draws, i) == FirstSafeRound(w, dangerBlock, c, draws, k)
  {
    if i < k {
      RejectedRoundsAreSkipped(w, dangerBlock, c, draws, i + 1, k);
    }
  }

  lemma SquareGrows(a: int, m: int)
    requires 0 < m && 0 <= a
    ensures m <= a ==> m * m <= a * a
  {
    if m <= a {
      assert m * m <= m * a <= a * a;
    }
  }

  lemma SquareBelow(x: int, m: int)
    requires 0 < m
    requires x * x < m * m
    ensures -m < x < m
  {
    var a := if x < 0 then -x else x;
    assert a * a == x * x;
    SquareGrows(a, m);
  }

  /**
   * An accepted offset lies strictly inside (-max, max) on both axes:
   * the ends of the drawn range are drawn but never accepted.
   */
  lemma AcceptedOffsetIsInterior(c: Config, d: Draw)
    requires 0 <= c.maxDistance
    requires Accepts(c, d)
    ensures 0 < c.maxDistance
    ensures -c.maxDistance < Offset(c, d).0 < c.maxDistance
    ensures -c.maxDistance < Offset(c, d).1 < c.maxDistance
  {
    var (x, z) := Offset(c, d);
    assert x * x + z * z < c.maxDistance * c.maxDistance;
    assert 0 <= x * x && 0 <= z * z;
    SquareBelow(x, c.maxDistance);
    SquareBelow(z, c.maxDistance);
  }

  /**
   * Every integer offset strictly inside the annulus is drawn by some round
   * and accepted there: the sampler can return any point of the annulus.
   */
  lemma EveryAnnulusPointIsReachable(c: Config, x: int, z: int)
    requires 0 <= c.maxDistance
    requires -c.maxDistance <= x <= c.maxDistance && -c.maxDistance <= z <= c.maxDistance
    requires InAnnulus(c, x, z)
    ensures Offset(c, (x + c.maxDistance, z + c.maxDistance)) == (x, z)
    ensures FirstAccepted(c, [(x + c.maxDistance, z + c.maxDistance)], 0) == Some(0)
  {
    RandBetweenIsOnto(-c.maxDistance, c.maxDistance, x);
    RandBetweenIsOnto(-c.maxDistance, c.maxDistance, z);
  }

  /** With a maximum distance of 0 no round is ever accepted, whatever the draws. */
  lemma ZeroMaxNeverAccepts(w: World, dangerBlock: seq<string>, c: Config, draws: seq<Draw>, i: nat)
    requires c.maxDistance == 0
    requires i <= |draws|
    ensures FirstAccepted(c, draws, i) == None
    ensures FirstSafeRound(w, dangerBlock, c, draws, i) == None
  {
    FirstAcceptedIsFirst(c, draws, i);
    FirstSafeRoundIsFirst(w, dangerBlock, c, draws, i);
  }

  /**
   * Once rule 3 of the validator fires, the maximum distance is 0 and no
   * draw is ever accepted: for a new player the sampling loops of the
   * source never end.
   */
  lemma ScaleDownStarvesSampler(w: World, dangerBlock: seq<string>, c: Config, worldRadius: nat, draws: seq<Draw>)
    requires ScalesDown(c, worldRadius)
    ensures FirstSafeRound(w, dangerBlock, Validated(c, worldRadius), draws, 0) == None
  {
    ZeroMaxNeverAccepts(w, dangerBlock, Validated(c, worldRadius), draws, 0);
  }

  /**
   * Adding names to the deny-list only removes safe locations.
   */
  lemma LongerDenyListIsStricter(w: World, fewer: seq<string>, more: seq<string>, loc: Location)
    requires forall n :: n in fewer ==> n in more
    ensures IsSafe(w, more, loc) ==> IsSafe(w, fewer, loc)
  {
  }

  /**
   * Safety looks at one column only: two worlds that agree on the three
   * blocks under, at and above the location judge it alike.
   */
  lemma SafetyIsLocal(w1: World, w2: World, dangerBlock: seq<string>, loc: Location)
    requires var b := loc.Block();
      && w1.blockAt(b.x, b.y - 1, b.z) == w2.blockAt(b.x, b.y - 1, b.z)
      && w1.blockAt(b.x, b.y, b.z) == w2.blockAt(b.x, b.y, b.z)
      && w1.blockAt(b.x, b.y + 1, b.z) == w2.blockAt(b.x, b.y + 1, b.z)
    ensures IsSafe(w1, dangerBlock, loc) == IsSafe(w2, dangerBlock, loc)
  {
  }
}
