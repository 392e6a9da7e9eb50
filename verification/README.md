# SpawnRand in Dafny

SpawnRand is a Bukkit plugin. It gives each new player a random spawn point inside a ring (an
annulus) around a configured center. The point must be safe to stand on. The plugin stores the
point in a per-player section of `playerData.yml` and sends the player back to it on respawn
unless a bed spawn takes precedence. This project models the plugin's one class, `SpawnRand.java`:

- `config.dfy` (module `SpawnConfig`): the four settings `centerX`, `centerZ`, `minDistance` and
  `maxDistance`. It also holds the four clamping rules of `validateConfig` as functions, with
  what they establish and what they do not.
- `sampling.dfy` (module `Sampling`): `randBetween`, the annulus test and the surface placement of
  `randomizeLocation`, the `locationIsSafe` predicate, and the two rejection loops as searches over
  a finite sequence of random draws.
- `records.dfy` (module `PlayerRecords`): a player's YAML section, with every key optional and read
  with YAML's defaults. It also holds the `bedSpawnLocation` marker text. The plugin never reads
  that marker back; the parser here belongs to the model only, as the inverse that shows the
  marker is unambiguous.
- `plugin.dfy` (module `Plugin`): the plugin object as a class. Its fields are the four settings,
  the deny-list, the player sections and two ghost logs of file writes. Its methods are
  `validateConfig`, `randomizeLocation`, the safe-location loop, `createPlayerSection`,
  `saveOverrideSpawnLocation`, `setPlayerData`, `curateLocation` and the three event handlers.
  The pure function `Curate` gives what `curateLocation` does. Lemmas about `Curate` state what
  each of its branches does.
- `host.dfy` (module `Host`) and `wrappers.dfy` (module `Wrappers`): the game server's values
  (world, block type, location, player) and `Option`.

Each `SpawnRand` method that changes state is proved against a function of the old state. For
example, `ValidateConfig` leaves `Cfg() == Validated(old(Cfg()), radius)`, and `CurateLocation`
leaves `Curated(r, Cfg(), playerData) == Curate(...)`. The properties are then proved about those
functions.

Randomness. One sampling round draws x and then z with `randBetween(-max, max)`. Each round is one
`Draw`, the pair of raw `nextInt` results. A raw result is any integer, and the model reduces it
modulo the range. So every integer stands for a value `nextInt` may return, and every such value
can be drawn (`RandBetweenIsOnto`). A handler gets a finite prefix of the random stream. If the
prefix runs out before the loops accept a point, the outcome is `Unresolved`, which stands for a
source loop that is still running.

Behaviour of the code as written that the proofs bring out:

- Rule 3 of `validateConfig` divides the world radius by `max + larger` in integer arithmetic. It
  fires only when that sum exceeds the radius, so the quotient is 0. The maximum distance and
  both center coordinates then become 0. With a maximum of 0 no draw is ever accepted, so a new
  player is never placed (`ScaleDownStarvesSampler`, `ScaleDownLeavesNewPlayerUnplaced`).
- The code has no check that rejects a small world. After validation the maximum distance is
  at most the radius. The other expected invariants (max ≥ 100, min ≤ round(0.8·max), and the
  annulus fits in the radius) hold when rule 3 does not fire and the larger center coordinate is
  not negative (`ValidatedIsWellFormed`). Validation is not idempotent
  (`ScaleDownIsNotAFixpoint`). The "modified" flag can be raised with no value changed, and then
  the same settings are written on every call (`ModifiedWithoutChange`).
- The respawn handler sets the override flag and creates the section before `curateLocation`
  runs. So a respawn never samples (`RespawnNeverSamples`). A player whose section holds no
  coordinates and who has no bed spawn respawns at block (0, 0, 0), because absent keys read as 0
  (`RespawnWithoutStoredPointGoesToOrigin`). A player who was placed keeps that spot: a death and
  a respawn without a bed spawn bring them back to the same block (`SpawnIsStableAcrossRespawns`).

## Model

| member | source | states |
|---|---|---|
| Host.Location.Block | src/main/java/com/codehawkins/spigot/spawnrand/SpawnRand.java:199-200 | getBlockX/Y/Z: the block containing the location, each coordinate floored |
| Host.StandingOn | src/main/java/com/codehawkins/spigot/spawnrand/SpawnRand.java:154-158 | the type of the block one below the location's block, which is the block containing the point one unit lower |
| Host.AtBlock | src/main/java/com/codehawkins/spigot/spawnrand/SpawnRand.java:107-110 | a location built from integer coordinates lies in exactly that block |
| SpawnConfig.Larger | src/main/java/com/codehawkins/spigot/spawnrand/SpawnRand.java:220 | Math.max: at least both center coordinates and equal to one of them |
| SpawnConfig.RoundFourFifths | src/main/java/com/codehawkins/spigot/spawnrand/SpawnRand.java:227-229 | Math.round(m*0.80) for m ≥ 0 is the integer nearest to 4m/5, between 0 and m |
| SpawnConfig.RaiseMax | src/main/java/com/codehawkins/spigot/spawnrand/SpawnRand.java:222-225 | rule 1 changes only the maximum, to at least 100, and keeps a maximum of 100 or more |
| SpawnConfig.CapMin | src/main/java/com/codehawkins/spigot/spawnrand/SpawnRand.java:227-230 | rule 2 changes only the minimum, to at most round(0.8·max), and keeps a minimum within that cap |
| SpawnConfig.ScaleToWorld | src/main/java/com/codehawkins/spigot/spawnrand/SpawnRand.java:232-238 | when rule 3 fires, the maximum and both centers become 0 and the minimum is kept; otherwise nothing changes |
| SpawnConfig.ClampMax | src/main/java/com/codehawkins/spigot/spawnrand/SpawnRand.java:240-243 | rule 4 changes only the maximum, to at most the radius, and keeps a maximum within the radius |
| SpawnConfig.Modified | src/main/java/com/codehawkins/spigot/spawnrand/SpawnRand.java:217-245 | the isModified flag is raised exactly when the configuration does not already meet the four invariants |
| SpawnConfig.ScaleFactorIsZero | src/main/java/com/codehawkins/spigot/spawnrand/SpawnRand.java:234 | the integer scale factor is 0 whenever rule 3 fires with a non-negative radius |
| SpawnConfig.Validated | src/main/java/com/codehawkins/spigot/spawnrand/SpawnRand.java:216-243 | after the four rules, 0 ≤ max ≤ radius. If rule 3 fired, max and both centers are 0 and min is what rule 2 left. Otherwise the centers are kept, min is capped at round(0.8·max(max,100)) and max is max(max,100) clamped to the radius. If no rule fired, nothing changed |
| SpawnConfig.WellFormedIsLeftAlone | src/main/java/com/codehawkins/spigot/spawnrand/SpawnRand.java:216-248 | a configuration already meeting the four invariants makes no rule fire and is left unchanged and unwritten |
| SpawnConfig.ValidatedIsWellFormed | src/main/java/com/codehawkins/spigot/spawnrand/SpawnRand.java:216-248 | if rule 3 does not fire and the larger center is ≥ 0, the result meets the four invariants and a second validation changes and writes nothing |
| SpawnConfig.SmallMaxRaisedTo100 | src/main/java/com/codehawkins/spigot/spawnrand/SpawnRand.java:222-230 | a maximum below 100 becomes exactly 100 before rule 2, which then caps the minimum at 80 |
| SpawnConfig.MinimumCappedAt800 | src/main/java/com/codehawkins/spigot/spawnrand/SpawnRand.java:227-230 | max 1000 and min 50000 give min 800, for any radius and center |
| SpawnConfig.ScaleDownIsNotAFixpoint | src/main/java/com/codehawkins/spigot/spawnrand/SpawnRand.java:232-238 | radius 500, center 0, max 1000, min 50000 validate to (0,0,800,0). Validating that again fires rules and gives (0,0,80,100) |
| SpawnConfig.ModifiedWithoutChange | src/main/java/com/codehawkins/spigot/spawnrand/SpawnRand.java:222-247 | the all-zero configuration with radius 50 raises the modified flag yet ends unchanged |
| Sampling.RandBetween | src/main/java/com/codehawkins/spigot/spawnrand/SpawnRand.java:209-214 | the result lies in the inclusive range [min, max] |
| Sampling.RandBetweenIsOnto | src/main/java/com/codehawkins/spigot/spawnrand/SpawnRand.java:209-214 | every value of [min, max], both ends included, is produced by some draw |
| Sampling.Offset | src/main/java/com/codehawkins/spigot/spawnrand/SpawnRand.java:187-188 | both raw offset coordinates lie in [-maxDistance, maxDistance] |
| Sampling.NoFartherThan | src/main/java/com/codehawkins/spigot/spawnrand/SpawnRand.java:189-190 | distance ≤ min: never for a negative min, always at the origin otherwise, and only when each coordinate is within min |
| Sampling.NoNearerThan | src/main/java/com/codehawkins/spigot/spawnrand/SpawnRand.java:189-190 | distance ≥ max: always for max ≤ 0, and whenever one coordinate alone reaches max |
| Sampling.InAnnulus | src/main/java/com/codehawkins/spigot/spawnrand/SpawnRand.java:189-190 | the loop exits only for a ring with 0 < max and min < max, at a point whose distance is below max |
| Sampling.Place | src/main/java/com/codehawkins/spigot/spawnrand/SpawnRand.java:192-195 | the point is the offset moved by the center, with y one above the highest block of its column |
| Sampling.IsSafe | src/main/java/com/codehawkins/spigot/spawnrand/SpawnRand.java:198-207 | a safe location stands on a solid block whose type is not in the deny-list |
| Sampling.FirstAccepted | src/main/java/com/codehawkins/spigot/spawnrand/SpawnRand.java:186-190 | the round the sampling loop stops at lies within the remaining draws |
| Sampling.FirstAcceptedIsFirst | src/main/java/com/codehawkins/spigot/spawnrand/SpawnRand.java:186-190 | the loop stops at the first round strictly inside the annulus (min < distance < max). No result means every remaining round was rejected |
| Sampling.FirstSafeRound | src/main/java/com/codehawkins/spigot/spawnrand/SpawnRand.java:102-104 | the round the outer loop stops at lies within the remaining draws |
| Sampling.FirstSafeRoundIsFirst | src/main/java/com/codehawkins/spigot/spawnrand/SpawnRand.java:102-104 | the outer loop stops at the first round that is accepted with a safe point. No result means no remaining round is |
| Sampling.RejectedRoundsAreSkipped | src/main/java/com/codehawkins/spigot/spawnrand/SpawnRand.java:102-104 | rounds rejected by the inner loop do not change where the outer loop stops |
| Sampling.AcceptedOffsetIsInterior | src/main/java/com/codehawkins/spigot/spawnrand/SpawnRand.java:186-190 | an accepted offset lies strictly inside (-max, max) on both axes, so the drawn ends ±max are never accepted |
| Sampling.EveryAnnulusPointIsReachable | src/main/java/com/codehawkins/spigot/spawnrand/SpawnRand.java:186-190 | every integer offset strictly inside the annulus is drawn by some round and accepted |
| Sampling.ZeroMaxNeverAccepts | src/main/java/com/codehawkins/spigot/spawnrand/SpawnRand.java:186-190 | with maxDistance 0 no round is accepted and no safe point is ever found |
| Sampling.ScaleDownStarvesSampler | src/main/java/com/codehawkins/spigot/spawnrand/SpawnRand.java:232-238 | after rule 3 fires, the sampling loops find no point for any draws |
| Sampling.LongerDenyListIsStricter | src/main/java/com/codehawkins/spigot/spawnrand/SpawnRand.java:201-203 | adding names to dangerBlock only removes safe locations |
| Sampling.SafetyIsLocal | src/main/java/com/codehawkins/spigot/spawnrand/SpawnRand.java:198-207 | safety depends only on the blocks under, at and above the location |
| PlayerRecords.GetInt | src/main/java/com/codehawkins/spigot/spawnrand/SpawnRand.java:108-110 | an absent integer key reads as 0, a present one as its value |
| PlayerRecords.GetBoolean | src/main/java/com/codehawkins/spigot/spawnrand/SpawnRand.java:124-126 | the override flag reads true exactly when it is set to true |
| PlayerRecords.SectionOrEmpty | src/main/java/com/codehawkins/spigot/spawnrand/SpawnRand.java:128-132 | an existing section is kept; otherwise the section is new and empty |
| PlayerRecords.StoredLocation | src/main/java/com/codehawkins/spigot/spawnrand/SpawnRand.java:107-110 | the location built from a section lies in the block of its stored x, y, z (0 when absent) |
| PlayerRecords.RecordSpot | src/main/java/com/codehawkins/spigot/spawnrand/SpawnRand.java:150-171 | the stored coordinates read back as the location's block. standingOn is the type of the block below. The override flag is untouched |
| PlayerRecords.NatToString | src/main/java/com/codehawkins/spigot/spawnrand/SpawnRand.java:165-168 | a non-empty string of decimal digits |
| PlayerRecords.IntToString | src/main/java/com/codehawkins/spigot/spawnrand/SpawnRand.java:165-168 | non-empty, starting with a digit or '-', with no '_' |
| PlayerRecords.NatToStringRoundTrip | src/main/java/com/codehawkins/spigot/spawnrand/SpawnRand.java:165-168 | parsing the digits gives the number back |
| PlayerRecords.IntToStringRoundTrip | src/main/java/com/codehawkins/spigot/spawnrand/SpawnRand.java:165-168 | parsing the decimal text gives the integer back, sign included |
| PlayerRecords.BedSpawnMarker | src/main/java/com/codehawkins/spigot/spawnrand/SpawnRand.java:162-170 | the value is "null" exactly when the player has no bed spawn |
| PlayerRecords.BedSpawnMarkerRoundTrip | src/main/java/com/codehawkins/spigot/spawnrand/SpawnRand.java:162-170 | the bedSpawnLocation value ("null" or "X_Y_Z") reads back as exactly the absence of a bed spawn, or its block |
| Plugin.Curate | src/main/java/com/codehawkins/spigot/spawnrand/SpawnRand.java:90-115 | the settings end validated. A finished curation leaves the player's section present with the override flag false. An unresolved one touches no section and happens only to a new player without a section. Other players' sections are untouched |
| Plugin.WithOverride | src/main/java/com/codehawkins/spigot/spawnrand/SpawnRand.java:117-122 | the player's section exists with the flag set to the given value and all its other keys kept. No other section changes |
| Plugin.NewPlayerIsPlacedSafely | src/main/java/com/codehawkins/spigot/spawnrand/SpawnRand.java:101-105 | a placed new player gets the point of a drawn, accepted, safe round, strictly inside the annulus and one above the surface. The new section holds its name, that point, the block below, the bed marker and flag false |
| Plugin.OverrideUsesStoredLocation | src/main/java/com/codehawkins/spigot/spawnrand/SpawnRand.java:106-111 | with no bed spawn and the flag set, the result is exactly the stored x, y, z with no sampling |
| Plugin.OtherwiseLocationIsKept | src/main/java/com/codehawkins/spigot/spawnrand/SpawnRand.java:90-115 | in every other case the proposed location is returned unchanged |
| Plugin.ScaleDownLeavesNewPlayerUnplaced | src/main/java/com/codehawkins/spigot/spawnrand/SpawnRand.java:101-104 | if rule 3 fires, a new player without a section is never placed and no section changes |
| Plugin.RespawnNeverSamples | src/main/java/com/codehawkins/spigot/spawnrand/SpawnRand.java:53-64 | after the respawn handler sets the flag, curation returns the stored point without a bed spawn and the proposed location with one |
| Plugin.RespawnWithoutStoredPointGoesToOrigin | src/main/java/com/codehawkins/spigot/spawnrand/SpawnRand.java:106-111 | a respawning player with no bed and no stored coordinates is sent to block (0, 0, 0) |
| Plugin.DeathThenRespawnReturnsToStoredBlock | src/main/java/com/codehawkins/spigot/spawnrand/SpawnRand.java:53-71 | a player with a section and no bed spawn who dies and respawns is sent to the block stored in the section |
| Plugin.SpawnIsStableAcrossRespawns | src/main/java/com/codehawkins/spigot/spawnrand/SpawnRand.java:53-115 | a placed new player who dies and respawns without a bed spawn comes back to the block chosen at first spawn |
| Plugin.SpawnRand.constructor | src/main/java/com/codehawkins/spigot/spawnrand/SpawnRand.java:26-30 | the settings are the loaded configuration values, and nothing has been written yet |
| Plugin.SpawnRand.UpdateConfig | src/main/java/com/codehawkins/spigot/spawnrand/SpawnRand.java:173-179 | one configuration write holding the current four settings |
| Plugin.SpawnRand.SavePlayerData | src/main/java/com/codehawkins/spigot/spawnrand/SpawnRand.java:121 | one write of all player sections |
| Plugin.SpawnRand.ValidateConfig | src/main/java/com/codehawkins/spigot/spawnrand/SpawnRand.java:216-248 | the settings become Validated(old settings, radius). They are written once exactly when a rule fired, and nothing else changes |
| Plugin.SpawnRand.RandomizeLocation | src/main/java/com/codehawkins/spigot/spawnrand/SpawnRand.java:181-196 | returns the placement of the first accepted round and the next unused round, or nothing once the draws run out |
| Plugin.SpawnRand.SafeRandomLocation | src/main/java/com/codehawkins/spigot/spawnrand/SpawnRand.java:102-104 | returns the placement of the first accepted round with a safe point, or nothing |
| Plugin.SpawnRand.CreatePlayerSection | src/main/java/com/codehawkins/spigot/spawnrand/SpawnRand.java:128-132 | a section is added only when the player has none |
| Plugin.SpawnRand.SaveOverrideSpawnLocation | src/main/java/com/codehawkins/spigot/spawnrand/SpawnRand.java:117-122 | the sections become WithOverride(old, id, flag), and they are saved once |
| Plugin.SpawnRand.SetPlayerData | src/main/java/com/codehawkins/spigot/spawnrand/SpawnRand.java:150-171 | the player's section (created if absent) gets RecordSpot. Nothing is saved |
| Plugin.SpawnRand.CurateLocation | src/main/java/com/codehawkins/spigot/spawnrand/SpawnRand.java:90-115 | result, settings and sections are those of Curate. The settings are written iff a rule fired. The sections are saved once iff a location was picked |
| Plugin.SpawnRand.OnPlayerSpawnLocationEvent | src/main/java/com/codehawkins/spigot/spawnrand/SpawnRand.java:42-51 | in The End the location is kept and nothing changes. Elsewhere the result is that of Curate |
| Plugin.SpawnRand.OnPlayerRespawnEvent | src/main/java/com/codehawkins/spigot/spawnrand/SpawnRand.java:53-64 | the flag is set and saved first. In The End it stays set and the location is kept. Elsewhere Curate runs on the flagged sections |
| Plugin.SpawnRand.OnPlayerDeathEvent | src/main/java/com/codehawkins/spigot/spawnrand/SpawnRand.java:66-71 | the flag becomes true whatever it was, creating the section if needed, and is saved |

## Left out

- Plugin lifecycle: `onEnable`, event registration, `saveDefaultConfig`, and `createPlayerData`
  (creating and loading `playerData.yml`). These are host wiring and file bootstrap. The
  constructor takes the loaded settings, deny-list and sections instead.
- File output: `saveConfig` and `playerData.save` are ghost logs of what was written. An
  `IOException` from a write is not modelled.
- `SecureRandom`: the draws are an input sequence. A handler whose sampling loops would run past
  the given draws returns `Unresolved` and saves no section. Termination of those unbounded loops is
  not claimed.
- Floating point: `Math.sqrt(Math.pow(..))` comparisons are exact integer comparisons on x²+z².
  `Math.round(max*0.80)` is `(8*max+5)/10`, exact for max ≥ 0. `Math.floor` of an integer product
  is the product.
- Java 32-bit overflow (for example in `maxDistance + larger` or `2*max+1`) is not modelled.
  Integers are unbounded.
- The world radius is taken as a non-negative integer, half the world-border size truncated. The
  double-to-int conversion is not modelled.
- Bukkit world queries are fields of a `World` value: highest block, block type and solidity, and
  environment. A `Location` keeps its three coordinates. Yaw, pitch and its world reference are not
  modelled. Java `assert` statements on a non-null world or player are not modelled.
- `getOverrideWorldSpawn` is not a separate member. It is read inline as `GetBoolean` of the flag.
- `Sampling.IsSafe`: its contract states only what a caller relies on (a solid, non-deny-listed
  block below). Its body is the full four-part test of the source.
