/**
 * The parts of the game server the plugin talks to, as plain values.
 * World queries (surface height, block lookup, world-border size) are
 * the fields of a `World` value, so every operation of the plugin takes
 * the world it queries as an input.
 */
module Host {
  import opened Wrappers

  /** World.Environment: the dimension a world belongs to. */
  datatype Environment = Normal | Nether | TheEnd | Custom

  /** The type of a block: its enum name (what `toString()` yields) and whether it is solid. */
  datatype Material = Material(name: string, solid: bool)

  /** An integer block position. */
  datatype BlockPos = BlockPos(x: int, y: int, z: int)

  /** A location inside a world; coordinates are real numbers. */
  datatype Location = Location(x: real, y: real, z: real) {

    /** getBlockX/getBlockY/getBlockZ: the block that contains the location. */
    function Block(): (b: BlockPos)
      ensures b.x as real <= x < b.x as real + 1.0
      ensures b.y as real <= y < b.y as real + 1.0
      ensures b.z as real <= z < b.z as real + 1.0
    {
      BlockPos(x.Floor, y.Floor, z.Floor)
    }
  }

  /** The block position as a location (`new Location(world, x, y, z)` with integer arguments). */
  function AtBlock(x: int, y: int, z: int): (loc: Location)
    ensures loc.Block() == BlockPos(x, y, z)
  {
    Location(x as real, y as real, z as real)
  }

  /**
   * A world as the plugin sees it.
   * `radius` is half the world border's size, truncated to an integer;
   * `highestBlockY(x, z)` is the y of the highest non-air block of a column;
   * `blockAt(x, y, z)` is the type of the block at a position.
   */
  datatype World = World(
    environment: Environment,
    radius: nat,
    highestBlockY: (int, int) -> int,
    blockAt: (int, int, int) -> Material)

  /**
   * The block one below a location's block: what a player placed there
   * stands on. It is the block containing the point one unit lower.
   */
  function StandingOn(w: World, loc: Location): (m: Material)
    ensures m == w.blockAt(loc.Block().x, (loc.y - 1.0).Floor, loc.Block().z)
  {
    var b := loc.Block();
    w.blockAt(b.x, b.y - 1, b.z)
  }

  /** The identity of a player: the string form of the player's unique id. */
  type PlayerId = string

  /** What the plugin asks of a player: id, name, whether they played before and their bed spawn. */
  datatype Player = Player(id: PlayerId, name: string, hasPlayedBefore: bool, bedSpawn: Option<Location>)
}
