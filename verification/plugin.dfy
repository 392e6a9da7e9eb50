/**
 * The plugin object: its four spawn settings, the deny-list of ground
 * blocks, the per-player sections of playerData.yml, and the three event
 * handlers that curate spawn and respawn locations.
 *
 * Writing the configuration file (saveConfig) and playerData.yml
 * (playerData.save) is recorded in two ghost logs, one entry per write.
 */
module Plugin {
  import opened Wrappers
  import opened Host
  import opened SpawnConfig
  import opened Sampling
  import opened PlayerRecords

  /** The location a handler sets, or Unresolved when the draws ran out while the sampling loops were still looking. */
  datatype Outcome = Spawn(location: Location) | Unresolved

  /** What curateLocation leaves behind: its result, the settings and the player sections. */
  datatype Curated = Curated(outcome: Outcome, config: Config, playerData: map<PlayerId, Section>)

  /**
   * curateLocation as a function of the state it starts from. The settings
   * are validated first. A player who has not played before and has no
   * section gets the first safe sampled point, recorded in a new section;
   * a player without a bed spawn whose section's override flag is set gets
   * the stored coordinates; anyone else keeps the location they had. In
   * every branch that finishes, the player's override flag ends false.
   */
  function Curate(c0: Config, data: map<PlayerId, Section>, dangerBlock: seq<string>,
                  w: World, loc: Location, player: Player, draws: seq<Draw>): (r: Curated)
    ensures r.config == Validated(c0, w.radius)
    ensures r.outcome.Spawn? ==>
      player.id in r.playerData && r.playerData[player.id].overrideWorldSpawn == Some(false)
    ensures r.outcome.Unresolved? ==>
      r.playerData == data && !player.hasPlayedBefore && player.id !in data
    ensures forall id :: id != player.id ==>
      (id in r.playerData <==> id in data) && (id in data ==> r.playerData[id] == data[id])
  {
    var c := Validated(c0, w.radius);
    var id := player.id;
    if !player.hasPlayedBefore && id !in data then
      match FirstSafeRound(w, dangerBlock, c, draws, 0)
      case None => Curated(Unresolved, c, data)
      case Some(k) =>
        var spot := Place(w, c, draws[k]);
        Curated(Spawn(spot), c, WithOverride(data[id := RecordSpot(EmptySection, w, spot, player)], id, false))
    else
      var overrideSpawn := id in data && GetBoolean(data[id].overrideWorldSpawn);
      var next := if player.bedSpawn.None? && overrideSpawn then StoredLocation(data[id]) else loc;
      Curated(Spawn(next), c, WithOverride(data, id, false))
  }

  /** saveOverrideSpawnLocation on the sections: create the player's section if needed and set its flag. */
  function WithOverride(data: map<PlayerId, Section>, id: PlayerId, doOverride: bool): (r: map<PlayerId, Section>)
    ensures id in r && r[id].overrideWorldSpawn == Some(doOverride)
    ensures r[id] == SectionOrEmpty(data, id).(overrideWorldSpawn := Some(doOverride))
    ensures r.Keys == data.Keys + {id}
    ensures forall other :: other in data && other != id ==> r[other] == data[other]
  {
    data[id := SectionOrEmpty(data, id).(overrideWorldSpawn := Some(doOverride))]
  }

  class SpawnRand {
    var centerX: int
    var centerZ: int
    var minDistance: int
    var maxDistance: int
    /** The `dangerBlock` list of the configuration: block types never to stand on. */
    const dangerBlock: seq<string>
    /** playerData.yml: one section per player id. */
    var playerData: map<PlayerId, Section>
    /** Every configuration written by updateConfig, oldest first. */
    ghost var savedConfigs: seq<Config>
    /** Every state of playerData.yml written by playerData.save, oldest first. */
    ghost var savedPlayerData: seq<map<PlayerId, Section>>

    /** The plugin as loaded: settings read from the configuration, sections read from playerData.yml. */
    constructor (config: Config, dangerBlock: seq<string>, playerData: map<PlayerId, Section>)
      ensures Cfg() == config && this.dangerBlock == dangerBlock && this.playerData == playerData
      ensures savedConfigs == [] && savedPlayerData == []
    {
      centerX := config.centerX;
      centerZ := config.centerZ;
      minDistance := config.minDistance;
      maxDistance := config.maxDistance;
      this.dangerBlock := dangerBlock;
      this.playerData := playerData;
      savedConfigs := [];
      savedPlayerData := [];
    }

    /** The four spawn settings as a value. */
    function Cfg(): Config
      reads this
    {
      Config(centerX, centerZ, minDistance, maxDistance)
    }

    /** updateConfig: write the four settings back to the configuration file. */
    method UpdateConfig()
      modifies this`savedConfigs
      ensures savedConfigs == old(savedConfigs) + [Cfg()]
    {
      savedConfigs := savedConfigs + [Cfg()];
    }

    /** playerData.save: write every section to playerData.yml. */
    method SavePlayerData()
      modifies this`savedPlayerData
      ensures savedPlayerData == old(savedPlayerData) + [playerData]
    {
      savedPlayerData := savedPlayerData + [playerData];
    }

    /**
     * validateConfig: apply the four rules in order and write the settings
     * back once, only when a rule fired.
     */
    method ValidateConfig(w: World)
      modifies this`centerX, this`centerZ, this`minDistance, this`maxDistance, this`savedConfigs
      ensures Cfg() == Validated(old(Cfg()), w.radius)
      ensures savedConfigs == old(savedConfigs) + if Modified(old(Cfg()), w.radius) then [Cfg()] else []
    {
      var isModified := false;
      var worldRadius := w.radius;
      var larger := if centerX >= centerZ then centerX else centerZ;

      if maxDistance < 100 {
        isModified := true;
        maxDistance := 100;
      }

      if minDistance > RoundFourFifths(maxDistance) {
        isModified := true;
        minDistance := RoundFourFifths(maxDistance);
      }

      if maxDistance + larger > worldRadius {
        isModified := true;
        var scaleDown := worldRadius / (maxDistance + larger);
        maxDistance := maxDistance * scaleDown;
        centerX := centerX * scaleDown;
        centerZ := centerZ * scaleDown;
      }

      if maxDistance > worldRadius {
        isModified := true;
        maxDistance := worldRadius;
      }

      if isModified {
        UpdateConfig();
      }
    }

    /**
     * randomizeLocation, starting at round `start` of the draws: sample
     * offsets until one lies strictly inside the annulus, then return the
     * point over it, one above the surface, and the next unused round.
     */
    method RandomizeLocation(w: World, draws: seq<Draw>, start: nat) returns (loc: Option<Location>, next: nat)
      requires 0 <= maxDistance
      requires start <= |draws|
      ensures match FirstAccepted(Cfg(), draws, start)
        case None => loc == None && next == |draws|
        case Some(k) => loc == Some(Place(w, Cfg(), draws[k])) && next == k + 1
    {
      var i := start;
      while i < |draws|
        invariant start <= i <= |draws|
        invariant FirstAccepted(Cfg(), draws, i) == FirstAccepted(Cfg(), draws, start)
      {
        var x := RandBetween(-maxDistance, maxDistance, draws[i].0);
        var z := RandBetween(-maxDistance, maxDistance, draws[i].1);
        if !(NoFartherThan(x, z, minDistance) || NoNearerThan(x, z, maxDistance)) {
          x := x + centerX;
          z := z + centerZ;
          return Some(AtBlock(x, w.highestBlockY(x, z) + 1, z)), i + 1;
        }
        i := i + 1;
      }
      return None, |draws|;
    }

    /**
     * The loop of curateLocation around randomizeLocation: draw points
     * until one is safe to stand on.
     */
    method SafeRandomLocation(w: World, draws: seq<Draw>) returns (spot: Option<Location>)
      requires 0 <= maxDistance
      ensures match FirstSafeRound(w, dangerBlock, Cfg(), draws, 0)
        case None => spot == None
        case Some(k) => spot == Some(Place(w, Cfg(), draws[k]))
    {
      var next := 0;
      while true
        invariant next <= |draws|
        invariant FirstSafeRound(w, dangerBlock, Cfg(), draws, next) == FirstSafeRound(w, dangerBlock, Cfg(), draws, 0)
        decreases |draws| - next
      {
        var candidate, after := RandomizeLocation(w, draws, next);
        FirstAcceptedIsFirst(Cfg(), draws, next);
        if candidate.None? {
          RejectedRoundsAreSkipped(w, dangerBlock, Cfg(), draws, next, |draws|);
          return None;
        }
        RejectedRoundsAreSkipped(w, dangerBlock, Cfg(), draws, next, after - 1);
        if IsSafe(w, dangerBlock, candidate.value) {
          return candidate;
        }
        next := after;
      }
    }

    /** createPlayerSection: make sure the player has a section. */
    method CreatePlayerSection(id: PlayerId)
      modifies this`playerData
      ensures playerData == old(playerData)[id := SectionOrEmpty(old(playerData), id)]
    {
      if id !in playerData {
        playerData := playerData[id := EmptySection];
      }
    }

    /** saveOverrideSpawnLocation: set the player's override flag and save playerData.yml. */
    method SaveOverrideSpawnLocation(player: Player, doOverride: bool)
      modifies this`playerData, this`savedPlayerData
      ensures playerData == WithOverride(old(playerData), player.id, doOverride)
      ensures savedPlayerData == old(savedPlayerData) + [playerData]
    {
      var id := player.id;
      CreatePlayerSection(id);
      playerData := playerData[id := playerData[id].(overrideWorldSpawn := Some(doOverride))];
      SavePlayerData();
    }

    /** setPlayerData: record where the player was placed, without saving. */
    method SetPlayerData(w: World, loc: Location, player: Player)
      modifies this`playerData
      ensures playerData == old(playerData)[player.id := RecordSpot(SectionOrEmpty(old(playerData), player.id), w, loc, player)]
    {
      var id := player.id;
      CreatePlayerSection(id);
      var b := loc.Block();
      var s := playerData[id];
      s := s.(name := Some(player.name));
      s := s.(standingOn := Some(w.blockAt(b.x, b.y - 1, b.z).name));
      s := s.(x := Some(b.x), y := Some(b.y), z := Some(b.z));
      s := s.(bedSpawnLocation := Some(BedSpawnMarker(player.bedSpawn)));
      playerData := playerData[id := s];
    }

    /**
     * curateLocation: validate the settings, then pick the player's
     * location; playerData.yml is saved once when a location was picked.
     */
    method CurateLocation(w: World, loc: Location, player: Player, draws: seq<Draw>) returns (r: Outcome)
      modifies this`centerX, this`centerZ, this`minDistance, this`maxDistance, this`savedConfigs
      modifies this`playerData, this`savedPlayerData
      ensures Curate(old(Cfg()), old(playerData), dangerBlock, w, loc, player, draws) == Curated(r, Cfg(), playerData)
      ensures savedConfigs == old(savedConfigs) + if Modified(old(Cfg()), w.radius) then [Cfg()] else []
      ensures savedPlayerData == old(savedPlayerData) + if r.Spawn? then [playerData] else []
    {
      ValidateConfig(w);
      var id := player.id;
      var isNewPlayer := !player.hasPlayedBefore;
      var hasLocationConfig := id in playerData;

      var overrideSpawn := false;
      if hasLocationConfig {
        overrideSpawn := GetBoolean(playerData[id].overrideWorldSpawn);
      }

      var theLocation := loc;
      if isNewPlayer && !hasLocationConfig {
        var spot := SafeRandomLocation(w, draws);
        if spot.None? {
          return Unresolved;
        }
        theLocation := spot.value;
        SetPlayerData(w, theLocation, player);
      } else if player.bedSpawn.None? && overrideSpawn {
        theLocation := StoredLocation(playerData[id]);
      }

      SaveOverrideSpawnLocation(player, false);
      return Spawn(theLocation);
    }

    /**
     * onPlayerSpawnLocationEvent: spawning into The End is left alone;
     * otherwise the spawn location is curated.
     */
    method OnPlayerSpawnLocationEvent(w: World, loc: Location, player: Player, draws: seq<Draw>) returns (r: Outcome)
      modifies this`centerX, this`centerZ, this`minDistance, this`maxDistance, this`savedConfigs
      modifies this`playerData, this`savedPlayerData
      ensures w.environment == TheEnd ==>
        && r == Spawn(loc)
        && Cfg() == old(Cfg()) && playerData == old(playerData)
        && savedConfigs == old(savedConfigs) && savedPlayerData == old(savedPlayerData)
      ensures w.environment != TheEnd ==>
        && Curate(old(Cfg()), old(playerData), dangerBlock, w, loc, player, draws) == Curated(r, Cfg(), playerData)
        && savedConfigs == old(savedConfigs) + (if Modified(old(Cfg()), w.radius) then [Cfg()] else [])
        && savedPlayerData == old(savedPlayerData) + (if r.Spawn? then [playerData] else [])
    {
      if w.environment == TheEnd {
        return Spawn(loc);
      }
      r := CurateLocation(w, loc, player, draws);
    }

    /**
     * onPlayerRespawnEvent: the player's override flag is set and saved
     * first, always; respawning into The End then keeps its location,
     * otherwise the location is curated (which clears the flag again).
     */
    method OnPlayerRespawnEvent(w: World, loc: Location, player: Player, draws: seq<Draw>) returns (r: Outcome)
      modifies this`centerX, this`centerZ, this`minDistance, this`maxDistance, this`savedConfigs
      modifies this`playerData, this`savedPlayerData
      ensures var flagged := WithOverride(old(playerData), player.id, true);
        w.environment == TheEnd ==>
          && r == Spawn(loc)
          && Cfg() == old(Cfg()) && playerData == flagged
          && savedConfigs == old(savedConfigs) && savedPlayerData == old(savedPlayerData) + [flagged]
      ensures var flagged := WithOverride(old(playerData), player.id, true);
        w.environment != TheEnd ==>
          && Curate(old(Cfg()), flagged, dangerBlock, w, loc, player, draws) == Curated(r, Cfg(), playerData)
          && savedConfigs == old(savedConfigs) + (if Modified(old(Cfg()), w.radius) then [Cfg()] else [])
          && savedPlayerData == old(savedPlayerData) + [flagged] + (if r.Spawn? then [playerData] else [])
    {
      SaveOverrideSpawnLocation(player, true);
      if w.environment == TheEnd {
        return Spawn(loc);
      }
      r := CurateLocation(w, loc, player, draws);
    }

    /** onPlayerDeathEvent: set and save the player's override flag, whatever it was. */
    method OnPlayerDeathEvent(player: Player)
      modifies this`playerData, this`savedPlayerData
      ensures playerData == WithOverride(old(playerData), player.id, true)
      ensures savedPlayerData == old(savedPlayerData) + [playerData]
    {
      SaveOverrideSpawnLocation(player, true);
    }
  }

  /**
   * A new player without a section who gets a location gets the point of
   * a round that was drawn, accepted and safe: its offset from the
   * validated center lies strictly inside the annulus, it stands one above
   * the surface on a solid block that is not deny-listed, and the new
   * section records exactly that point, the block it stands on, the bed
   * spawn marker and a cleared override flag.
   */
  lemma NewPlayerIsPlacedSafely(c0: Config, data: map<PlayerId, Section>, dangerBlock: seq<string>,
                                w: World, loc: Location, player: Player, draws: seq<Draw>)
    requires !player.hasPlayedBefore && player.id !in data
    requires Curate(c0, data, dangerBlock, w, loc, player, draws).outcome.Spawn?
    ensures var c := Validated(c0, w.radius);
      var r := Curate(c0, data, dangerBlock, w, loc, player, draws);
      var spot := r.outcome.location;
      var b := spot.Block();
      && (exists k :: 0 <= k < |draws| && SafeRound(w, dangerBlock, c, draws[k]) && spot == Place(w, c, draws[k]))
      && InAnnulus(c, b.x - c.centerX, b.z - c.centerZ)
      && b.y == w.highestBlockY(b.x, b.z) + 1
      && IsSafe(w, dangerBlock, spot)
      && StandingOn(w, spot).solid && StandingOn(w, spot).name !in dangerBlock
      && r.playerData[player.id] == Section(Some(player.name), Some(StandingOn(w, spot).name),
                                            Some(b.x), Some(b.y), Some(b.z),
                                            Some(BedSpawnMarker(player.bedSpawn)), Some(false))
  {
    var c := Validated(c0, w.radius);
    FirstSafeRoundIsFirst(w, dangerBlock, c, draws, 0);
    var k := FirstSafeRound(w, dangerBlock, c, draws, 0).value;
    assert SafeRound(w, dangerBlock, c, draws[k]);
  }

  /**
   * A returning player (or one who already has a section) without a bed
   * spawn whose override flag is set is sent to the stored coordinates,
   * with no sampling.
   */
  lemma OverrideUsesStoredLocation(c0: Config, data: map<PlayerId, Section>, dangerBlock: seq<string>,
                                   w: World, loc: Location, player: Player, draws: seq<Draw>)
    requires player.bedSpawn.None?
    requires player.id in data && GetBoolean(data[player.id].overrideWorldSpawn)
    ensures Curate(c0, data, dangerBlock, w, loc, player, draws).outcome == Spawn(StoredLocation(data[player.id]))
    ensures Curate(c0, data, dangerBlock, w, loc, player, draws).outcome.location.Block() ==
      BlockPos(GetInt(data[player.id].x), GetInt(data[player.id].y), GetInt(data[player.id].z))
  {
  }

  /** In every other case the location the host proposed is kept. */
  lemma OtherwiseLocationIsKept(c0: Config, data: map<PlayerId, Section>, dangerBlock: seq<string>,
                                w: World, loc: Location, player: Player, draws: seq<Draw>)
    requires player.hasPlayedBefore || player.id in data
    requires !(player.bedSpawn.None? && player.id in data && GetBoolean(data[player.id].overrideWorldSpawn))
    ensures Curate(c0, data, dangerBlock, w, loc, player, draws).outcome == Spawn(loc)
  {
  }

  /**
   * When rule 3 of the validator fires, a new player without a section is
   * never placed: every draw is rejected and the source loops forever.
   */
  lemma ScaleDownLeavesNewPlayerUnplaced(c0: Config, data: map<PlayerId, Section>, dangerBlock: seq<string>,
                                         w: World, loc: Location, player: Player, draws: seq<Draw>)
    requires !player.hasPlayedBefore && player.id !in data
    requires ScalesDown(c0, w.radius)
    ensures Curate(c0, data, dangerBlock, w, loc, player, draws) == Curated(Unresolved, Validated(c0, w.radius), data)
  {
    ScaleDownStarvesSampler(w, dangerBlock, c0, w.radius, draws);
  }

  /**
   * On respawn outside The End the flag is already set and the section
   * exists when curateLocation runs, so the sampling branch is never
   * taken: without a bed spawn the player goes to the stored coordinates,
   * with one the proposed location is kept.
   */
  lemma RespawnNeverSamples(c0: Config, data: map<PlayerId, Section>, dangerBlock: seq<string>,
                            w: World, loc: Location, player: Player, draws: seq<Draw>)
    ensures var flagged := WithOverride(data, player.id, true);
      Curate(c0, flagged, dangerBlock, w, loc, player, draws).outcome ==
        if player.bedSpawn.None? then Spawn(StoredLocation(SectionOrEmpty(data, player.id))) else Spawn(loc)
  {
  }

  /**
   * A player whose section holds no coordinates (it was created by a death
   * or an earlier respawn, not by a random placement) and who has no bed
   * spawn respawns at block (0, 0, 0): absent keys read as 0.
   */
  lemma RespawnWithoutStoredPointGoesToOrigin(c0: Config, data: map<PlayerId, Section>, dangerBlock: seq<string>,
                                              w: World, loc: Location, player: Player, draws: seq<Draw>)
    requires player.bedSpawn.None?
    requires player.id !in data || (data[player.id].x.None? && data[player.id].y.None? && data[player.id].z.None?)
    ensures Curate(c0, WithOverride(data, player.id, true), dangerBlock, w, loc, player, draws).outcome ==
      Spawn(AtBlock(0, 0, 0))
  {
    RespawnNeverSamples(c0, data, dangerBlock, w, loc, player, draws);
  }

  /**
   * A player who has a section and no bed spawn, dies (flag set) and then
   * respawns (flag set again) is sent to the block stored in the section:
   * setting the flag leaves the stored coordinates alone.
   */
  lemma DeathThenRespawnReturnsToStoredBlock(c0: Config, data: map<PlayerId, Section>, dangerBlock: seq<string>,
                                             w: World, loc: Location, player: Player, draws: seq<Draw>)
    requires player.id in data && player.bedSpawn.None?
    ensures var afterDeath := WithOverride(data, player.id, true);
      var r := Curate(c0, WithOverride(afterDeath, player.id, true), dangerBlock, w, loc, player, draws);
      && r.outcome.Spawn?
      && r.outcome.location.Block() == BlockPos(GetInt(data[player.id].x), GetInt(data[player.id].y), GetInt(data[player.id].z))
  {
    RespawnNeverSamples(c0, WithOverride(data, player.id, true), dangerBlock, w, loc, player, draws);
  }

  /**
   * The spawn point a new player is given is kept across deaths: after the
   * placement, a death and a respawn without a bed spawn send the player
   * back to the block chosen at first spawn, whatever the settings, the
   * world's other blocks and the draws are by then.
   */
  lemma SpawnIsStableAcrossRespawns(c0: Config, data: map<PlayerId, Section>, dangerBlock: seq<string>,
                                    w: World, loc: Location, player: Player, draws: seq<Draw>,
                                    c1: Config, w1: World, loc1: Location, respawned: Player, draws1: seq<Draw>)
    requires !player.hasPlayedBefore && player.id !in data
    requires Curate(c0, data, dangerBlock, w, loc, player, draws).outcome.Spawn?
    requires respawned.id == player.id && respawned.bedSpawn.None?
    ensures var placed := Curate(c0, data, dangerBlock, w, loc, player, draws);
      var afterDeath := WithOverride(placed.playerData, player.id, true);
      var back := Curate(c1, WithOverride(afterDeath, player.id, true), dangerBlock, w1, loc1, respawned, draws1);
      && back.outcome.Spawn?
      && back.outcome.location.Block() == placed.outcome.location.Block()
  {
    var placed := Curate(c0, data, dangerBlock, w, loc, player, draws);
    var spot := placed.outcome.location;
    NewPlayerIsPlacedSafely(c0, data, dangerBlock, w, loc, player, draws);
    var b := spot.Block();
    assert placed.playerData[player.id].x == Some(b.x);
    assert placed.playerData[player.id].y == Some(b.y);
    assert placed.playerData[player.id].z == Some(b.z);
    DeathThenRespawnReturnsToStoredBlock(c1, placed.playerData, dangerBlock, w1, loc1, respawned, draws1);
  }
}
