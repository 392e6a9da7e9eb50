/**
 * The plugin's four spawn settings and the rules `validateConfig` applies to
 * them against the radius of the world being spawned into.
 *
 * The rules run in a fixed order, each only when its condition holds:
 *   1. a maximum distance below 100 is raised to 100;
 *   2. a minimum distance above round(0.8 * max) is lowered to it;
 *   3. when max + max(centerX, centerZ) exceeds the radius (the larger
 *      center coordinate is taken before any rule ran), max and both
 *      center coordinates are multiplied by radius / (max + larger) in
 *      integer division;
 *   4. a maximum distance above the radius is lowered to the radius.
 * Integers are mathematical: Java's 32-bit overflow of `max + larger`
 * is not modelled.
 */
module SpawnConfig {

  /** Spawnrand.centerX, centerZ, minDistance and maxDistance. */
  datatype Config = Config(centerX: int, centerZ: int, minDistance: int, maxDistance: int)

  /** The least maximum distance rule 1 allows. */
  const LeastMaxDistance := 100

  /** Math.max(centerX, centerZ). */
  function Larger(c: Config): (r: int)
    ensures r >= c.centerX && r >= c.centerZ
    ensures r == c.centerX || r == c.centerZ
  {
    if c.centerX >= c.centerZ then c.centerX else c.centerZ
  }

  /**
   * Math.round(m * 0.80) for a non-negative m: the integer nearest to 4m/5.
   * 8m is even, so 4m/5 is never halfway between two integers.
   */
  function RoundFourFifths(m: int): (r: int)
    requires 0 <= m
    ensures 10 * r - 5 <= 8 * m < 10 * r + 5
    ensures 0 <= r <= m
  {
    (8 * m + 5) / 10
  }

  /** Rule 1: only the maximum distance changes, to at least 100; a maximum already at least 100 is kept. */
  function RaiseMax(c: Config): (r: Config)
    ensures r == c.(maxDistance := r.maxDistance)
    ensures r.maxDistance >= LeastMaxDistance && r.maxDistance >= c.maxDistance
    ensures r.maxDistance == c.maxDistance || r.maxDistance == LeastMaxDistance
  {
    if c.maxDistance < LeastMaxDistance then c.(maxDistance := LeastMaxDistance) else c
  }

  /**
   * Rule 2, on a configuration rule 1 has already seen: only the minimum
   * distance changes, to at most round(0.8 * max); a minimum already within
   * that cap is kept.
   */
  function CapMin(c: Config): (r: Config)
    requires 0 <= c.maxDistance
    ensures r == c.(minDistance := r.minDistance)
    ensures r.minDistance <= RoundFourFifths(c.maxDistance) && r.minDistance <= c.minDistance
    ensures r.minDistance == c.minDistance || r.minDistance == RoundFourFifths(c.maxDistance)
  {
    var cap := RoundFourFifths(c.maxDistance);
    if c.minDistance > cap then c.(minDistance := cap) else c
  }

  /** Rule 3's condition; `larger` is Larger of the configuration before rule 1. */
  predicate ScaleFires(c: Config, larger: int, worldRadius: nat)
  {
    c.maxDistance + larger > worldRadius
  }

  /**
   * Rule 3: when it fires, the integer scale factor is 0, so the maximum
   * distance and both center coordinates become 0 and the minimum is kept;
   * otherwise nothing changes.
   */
  function ScaleToWorld(c: Config, larger: int, worldRadius: nat): (r: Config)
    ensures ScaleFires(c, larger, worldRadius) ==> r == Config(0, 0, c.minDistance, 0)
    ensures !ScaleFires(c, larger, worldRadius) ==> r == c
  {
    if ScaleFires(c, larger, worldRadius) then
      // The dividend is non-negative and the divisor positive here, so
      // Java's truncating division and Dafny's Euclidean division agree.
      ScaleFactorIsZero(worldRadius, c.maxDistance + larger);
      var scaleDown := worldRadius / (c.maxDistance + larger);
      Config(c.centerX * scaleDown, c.centerZ * scaleDown, c.minDistance, c.maxDistance * scaleDown)
    else
      c
  }

  /** Rule 4: only the maximum distance changes, to at most the radius; a maximum within the radius is kept. */
  function ClampMax(c: Config, worldRadius: nat): (r: Config)
    ensures r == c.(maxDistance := r.maxDistance)
    ensures r.maxDistance <= worldRadius && r.maxDistance <= c.maxDistance
    ensures r.maxDistance == c.maxDistance || r.maxDistance == worldRadius
  {
    if c.maxDistance > worldRadius then c.(maxDistance := worldRadius) else c
  }

  /** The configuration after rules 1 and 2. */
  function Capped(c: Config): Config
  {
    CapMin(RaiseMax(c))
  }

  /** Whether rule 3 fires when validating `c`. */
  predicate ScalesDown(c: Config, worldRadius: nat)
  {
    ScaleFires(Capped(c), Larger(c), worldRadius)
  }

  /**
   * The `isModified` flag: whether any of the four rules fired. It is
   * raised exactly when the configuration is not already well-formed.
   */
  predicate Modified(c: Config, worldRadius: nat)
    ensures Modified(c, worldRadius) <==> !WellFormed(c, worldRadius)
  {
    var c1 := RaiseMax(c);
    var c3 := ScaleToWorld(Capped(c), Larger(c), worldRadius);
    || c.maxDistance < LeastMaxDistance
    || c1.minDistance > RoundFourFifths(c1.maxDistance)
    || ScalesDown(c, worldRadius)
    || c3.maxDistance > worldRadius
  }

  /**
   * The configuration validateConfig leaves behind. Rule 4 runs last, so
   * the maximum distance never exceeds the radius; when rule 3 fires its
   * integer scale factor is 0, and the maximum distance and both center
   * coordinates end up 0 while the minimum keeps what rule 2 left.
   */
  function Validated(c: Config, worldRadius: nat): (r: Config)
    ensures 0 <= r.maxDistance <= worldRadius
    ensures ScalesDown(c, worldRadius) ==>
      r == Config(0, 0, Capped(c).minDistance, 0)
    ensures !ScalesDown(c, worldRadius) ==>
      && r.centerX == c.centerX && r.centerZ == c.centerZ
      && r.minDistance == Capped(c).minDistance
      && r.maxDistance == if Capped(c).maxDistance <= worldRadius then Capped(c).maxDistance else worldRadius
    ensures !Modified(c, worldRadius) ==> r == c
  {
    var c2 := Capped(c);
    var c3 := ScaleToWorld(c2, Larger(c), worldRadius);
    ScaleFactorIsZero(worldRadius, c2.maxDistance + Larger(c));
    ClampMax(c3, worldRadius)
  }

  lemma ScaleFactorIsZero(worldRadius: nat, d: int)
    ensures worldRadius < d ==> worldRadius / d == 0
  {
  }

  /**
   * What the validator is meant to establish: the maximum distance is at
   * least 100, the minimum at most round(0.8 * max), and the annulus around
   * the center fits inside the world radius.
   */
  predicate WellFormed(c: Config, worldRadius: nat)
  {
    && c.maxDistance >= LeastMaxDistance
    && c.minDistance <= RoundFourFifths(c.maxDistance)
    && c.maxDistance + Larger(c) <= worldRadius
    && c.maxDistance <= worldRadius
  }

  /** A well-formed configuration makes no rule fire: nothing changes and nothing is written. */
  lemma WellFormedIsLeftAlone(c: Config, worldRadius: nat)
    requires WellFormed(c, worldRadius)
    ensures !Modified(c, worldRadius)
    ensures Validated(c, worldRadius) == c
  {
  }

  /**
   * When rule 3 does not fire and the larger center coordinate is not
   * negative, validation yields a well-formed configuration, so validating
   * again changes nothing.
   */
  lemma ValidatedIsWellFormed(c: Config, worldRadius: nat)
    requires !ScalesDown(c, worldRadius)
    requires Larger(c) >= 0
    ensures WellFormed(Validated(c, worldRadius), worldRadius)
    ensures !Modified(Validated(c, worldRadius), worldRadius)
    ensures Validated(Validated(c, worldRadius), worldRadius) == Validated(c, worldRadius)
  {
    WellFormedIsLeftAlone(Validated(c, worldRadius), worldRadius);
  }

  /** Rule 1 raises a maximum distance below 100 to exactly 100 before rule 2 reads it. */
  lemma SmallMaxRaisedTo100(c: Config)
    requires c.maxDistance < LeastMaxDistance
    ensures RaiseMax(c).maxDistance == 100
    ensures Capped(c).minDistance == if c.minDistance > 80 then 80 else c.minDistance
  {
  }

  /** A maximum of 1000 and a minimum of 50000: the minimum becomes 800 whether or not rule 3 fires. */
  lemma MinimumCappedAt800(worldRadius: nat, cx: int, cz: int)
    ensures Validated(Config(cx, cz, 50000, 1000), worldRadius).minDistance == 800
  {
  }

  /**
   * With a radius of 500 and a centered annulus of maximum 1000, rule 3
   * fires and zeroes the maximum distance; validating that result again
   * fires rules 1 and 2 once more: validation is not idempotent.
   */
  lemma ScaleDownIsNotAFixpoint()
    ensures Validated(Config(0, 0, 50000, 1000), 500) == Config(0, 0, 800, 0)
    ensures Modified(Config(0, 0, 800, 0), 500)
    ensures Validated(Config(0, 0, 800, 0), 500) == Config(0, 0, 80, 100)
  {
  }

  /**
   * The flag can be raised while the values end where they started: rule 1
   * raises 0 to 100 and rule 3 scales it back to 0. Such a configuration is
   * written back on every validation.
   */
  lemma ModifiedWithoutChange()
    ensures Modified(Config(0, 0, 0, 0), 50)
    ensures Validated(Config(0, 0, 0, 0), 50) == Config(0, 0, 0, 0)
  {
  }
}
