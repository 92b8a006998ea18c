/** The Paper-specific handlers of the plot listener. Each handler reads what
    the event and the plot index report about a location and decides a
    verdict, which the server then applies to the event: cancel it, abort the
    spawn, deny the build, remove the projectile, tell the player why.
    Tab completion is the one handler that computes step by step and is a
    method. */
module PaperListener {
  import opened Domain
  import opened JavaStrings

  /** The configuration switches and limits the handlers read. */
  datatype Settings = Settings(
    // Paper_Components
    entityPathing: bool,
    creatureSpawn: bool,
    cancelChunkSpawn: bool,
    spawnerSpawn: bool,
    tileEntityCheck: bool,
    playerProjectile: bool,
    asyncTabCompletion: bool,
    // Enabled_Components
    chunkProcessor: bool,
    killRoadItems: bool,
    disableBeaconEffectOverflow: bool,
    tabCompletedAliases: seq<string>,
    // Chunk_Processor
    maxEntities: int,
    maxTiles: int,
    // Done
    restrictBuilding: bool)

  /** A plot area with the area-wide switches the handlers consult.
      `roadProjectiles` is whether the road flags are on and the road's
      projectiles flag equals true; `roadBeaconEffects` is what a beacon-effects lookup
      (`getFlag`) on the road flag container returns, if anything. */
  datatype Area = Area(
    id: AreaId,
    spawnEggs: bool,
    mobSpawning: bool,
    spawnBreeding: bool,
    spawnCustom: bool,
    mobSpawnerSpawning: bool,
    miscSpawnUnowned: bool,
    roadProjectiles: bool,
    roadBeaconEffects: Option<bool>)

  /** A plot as the handlers see it. `idHash` is the hash code of its id,
      `connected` the ids of the plots its merge group reports, `added`
      the players it counts as added, `done` whether it is marked done,
      `projectiles` the resolved projectiles flag and `beaconEffects` what a
      beacon-effects lookup (`getFlag`) on its flag container returns, if
      anything. */
  datatype Plot = Plot(
    area: AreaId,
    id: PlotId,
    idHash: int,
    merged: bool,
    connected: set<PlotId>,
    hasOwner: bool,
    added: set<PlayerId>,
    done: bool,
    projectiles: bool,
    beaconEffects: Option<bool>)

  /** What a location resolves to: its plot area, if any, and the plot the
      handler looks up there, if any. */
  datatype Spot = Spot(area: Option<Area>, plot: Option<Plot>)

  /** Messages a handler sends to the player. */
  datatype Message =
    | NoPermissionEvent(node: Permission)
    | TileEntityCapReached(amount: int)

  /** The effects of one handler call on its event. */
  datatype Verdict = Verdict(
    cancelled: bool,
    abortSpawn: bool,
    buildDenied: bool,
    removeProjectile: bool,
    message: Option<Message>)

  const Untouched := Verdict(false, false, false, false, None)
  const Cancel := Verdict(true, false, false, false, None)
  const CancelAndAbort := Verdict(true, true, false, false, None)

  // ---------------------------------------------------------------------
  // Entity pathfinding
  // ---------------------------------------------------------------------

  /** The ladder both pathfinding handlers run once the target location is
      known. Areas are compared by identity, plots by the hash codes of
      their ids, and the merge test asks only whether the source plot's
      merge group contains the source plot. */
  function PathfindLadder(from: Spot, to: Spot): Verdict
  {
    if to.area.None? then Untouched
    else if from.area.None? then Untouched
    else if to.area.value.id != from.area.value.id then Cancel
    else if to.plot.None? != from.plot.None? then Cancel
    else if to.plot.None? || to.plot.value.idHash == from.plot.value.idHash then Untouched
    else if from.plot.value.merged && from.plot.value.id in from.plot.value.connected then Untouched
    else Cancel
  }

  /** An entity walking from `from` towards `to`. */
  function OnEntityPathfind(s: Settings, from: Spot, to: Spot): (v: Verdict)
    ensures v == Untouched || v == Cancel
    ensures v.cancelled <==>
      && s.entityPathing && to.area.Some? && from.area.Some?
      && (|| to.area.value.id != from.area.value.id
          || to.plot.Some? != from.plot.Some?
          || (&& to.plot.Some? && from.plot.Some?
              && to.plot.value.idHash != from.plot.value.idHash
              && !(from.plot.value.merged && from.plot.value.id in from.plot.value.connected)))
  {
    if !s.entityPathing then Untouched else PathfindLadder(from, to)
  }

  /** A slime heading for the block it targets within four blocks, if any. */
  function OnSlimePathfind(s: Settings, from: Spot, target: Option<Spot>): (v: Verdict)
    ensures target.None? ==> v == Untouched
    ensures target.Some? ==> v == OnEntityPathfind(s, from, target.value)
  {
    if !s.entityPathing then Untouched
    else if target.None? then Untouched
    else PathfindLadder(from, target.value)
  }

  /** The merge test never looks at the target: once the source plot is
      merged and its group holds itself, the entity may walk into any other
      plot of the area. */
  lemma MergeCheckIgnoresTarget(s: Settings, from: Spot, to: Spot)
    requires s.entityPathing
    requires from.area.Some? && to.area.Some? && from.area.value.id == to.area.value.id
    requires from.plot.Some? && to.plot.Some?
    requires from.plot.value.merged && from.plot.value.id in from.plot.value.connected
    ensures !OnEntityPathfind(s, from, to).cancelled
  {
  }

  /** A concrete walk out of a merged plot into a plot outside its merge
      group that the handler lets through. */
  lemma MergedPlotReachesUnconnectedPlot(s: Settings, a: Area)
    requires s.entityPathing
    ensures
      var source := Plot(a.id, PlotId(0, 0), 1, true, {PlotId(0, 0), PlotId(0, 1)}, true, {}, false, true, None);
      var target := Plot(a.id, PlotId(5, 5), 2, false, {PlotId(5, 5)}, true, {}, false, true, None);
      && target.id !in source.connected
      && !OnEntityPathfind(s, Spot(Some(a), Some(source)), Spot(Some(a), Some(target))).cancelled
  {
  }

  /** Two different plots whose ids share a hash code are treated as one
      plot, so walking between them is never blocked. */
  lemma HashCollisionCountsAsSamePlot(s: Settings, from: Spot, to: Spot)
    requires from.area.Some? && to.area.Some? && from.area.value.id == to.area.value.id
    requires from.plot.Some? && to.plot.Some?
    requires from.plot.value.id != to.plot.value.id
    requires from.plot.value.idHash == to.plot.value.idHash
    ensures !OnEntityPathfind(s, from, to).cancelled
  {
  }

  /** When every merged plot's group holds the plot itself, as merge groups
      do, a walk between two plots of one area is blocked exactly when the
      id hashes differ and the source plot is not merged. */
  lemma PathfindBetweenPlotsWithWellFormedGroups(s: Settings, from: Spot, to: Spot)
    requires s.entityPathing
    requires from.area.Some? && to.area.Some? && from.area.value.id == to.area.value.id
    requires from.plot.Some? && to.plot.Some?
    requires from.plot.value.merged ==> from.plot.value.id in from.plot.value.connected
    ensures OnEntityPathfind(s, from, to).cancelled <==>
      from.plot.value.idHash != to.plot.value.idHash && !from.plot.value.merged
  {
  }

  // ---------------------------------------------------------------------
  // Creature spawning
  // ---------------------------------------------------------------------

  /** The entity types the spawn handler tells apart. */
  datatype EntityType = ArmorStand | DroppedItem | PlayerEntity | OtherEntity(alive: bool)
  {
    /** Whether the type is a living entity. */
    predicate IsAlive()
    {
      match this
      case ArmorStand => true
      case DroppedItem => false
      case PlayerEntity => true
      case OtherEntity(alive) => alive
    }
  }

  /** The spawn reasons (by name) of each bucket of the spawn switch. */
  const EggReasons: set<string> := {"DISPENSE_EGG", "EGG", "OCELOT_BABY", "SPAWNER_EGG"}
  const NaturalReasons: set<string> :=
    {"REINFORCEMENTS", "NATURAL", "MOUNT", "PATROL", "RAID", "SHEARED", "SILVERFISH_BLOCK",
     "ENDER_PEARL", "TRAP", "VILLAGE_DEFENSE", "VILLAGE_INVASION", "BEEHIVE", "CHUNK_GEN"}
  const BreedingReasons: set<string> := {"BREEDING"}
  const CustomReasons: set<string> := {"BUILD_IRONGOLEM", "BUILD_SNOWMAN", "BUILD_WITHER", "CUSTOM"}
  const SpawnerReasons: set<string> := {"SPAWNER"}

  datatype Bucket = EggBucket | NaturalBucket | BreedingBucket | CustomBucket | SpawnerBucket

  /** The bucket of the spawn switch a reason falls into, if any. */
  function ReasonBucket(reason: string): (b: Option<Bucket>)
    ensures b == Some(EggBucket) <==> reason in EggReasons
    ensures b == Some(NaturalBucket) <==> reason in NaturalReasons
    ensures b == Some(BreedingBucket) <==> reason in BreedingReasons
    ensures b == Some(CustomBucket) <==> reason in CustomReasons
    ensures b == Some(SpawnerBucket) <==> reason in SpawnerReasons
  {
    if reason in EggReasons then Some(EggBucket)
    else if reason in NaturalReasons then Some(NaturalBucket)
    else if reason in BreedingReasons then Some(BreedingBucket)
    else if reason in CustomReasons then Some(CustomBucket)
    else if reason in SpawnerReasons then Some(SpawnerBucket)
    else None
  }

  /** The area switch that governs a bucket. */
  function BucketAllowed(area: Area, b: Bucket): bool
  {
    match b
    case EggBucket => area.spawnEggs
    case NaturalBucket => area.mobSpawning
    case BreedingBucket => area.spawnBreeding
    case CustomBucket => area.spawnCustom
    case SpawnerBucket => area.mobSpawnerSpawning
  }

  /** A creature about to spawn: the area of the spawn location, the
      entity type, how many entities the chunk holds, the spawn reason's
      name and the owned base plot at the location, if any. */
  datatype SpawnAttempt = SpawnAttempt(
    area: Option<Area>,
    entityType: EntityType,
    chunkEntities: nat,
    reason: string,
    ownedPlot: Option<Plot>)

  /** The handler looks at the spawn at all. */
  predicate SpawnConsidered(s: Settings, e: SpawnAttempt)
  {
    s.creatureSpawn && e.area.Some? && e.entityType != ArmorStand
  }

  /** The chunk already holds the maximum number of entities. */
  predicate EntityCapReached(s: Settings, e: SpawnAttempt)
  {
    e.chunkEntities >= s.maxEntities
  }

  /** The spawn reason falls into a bucket whose area switch is off. */
  predicate ReasonRefused(e: SpawnAttempt)
    requires e.area.Some?
  {
    var b := ReasonBucket(e.reason);
    b.Some? && !BucketAllowed(e.area.value, b.value)
  }

  /** Off any owned plot: a living entity other than a player while mob
      spawning is off, or a non-living one other than a dropped item while
      miscellaneous spawning on unowned land is off. */
  predicate UnownedRefused(e: SpawnAttempt)
    requires e.area.Some?
  {
    && e.ownedPlot.None?
    && e.entityType != DroppedItem
    && (|| (e.entityType.IsAlive() && e.entityType != PlayerEntity && !e.area.value.mobSpawning)
        || (!e.entityType.IsAlive() && !e.area.value.miscSpawnUnowned))
  }

  function OnPreCreatureSpawn(s: Settings, e: SpawnAttempt): (v: Verdict)
    ensures v == Untouched || v == Cancel || v == CancelAndAbort
    ensures v.abortSpawn <==>
      && SpawnConsidered(s, e)
      && (|| EntityCapReached(s, e)
          || ReasonRefused(e)
          || UnownedRefused(e)
          || (e.ownedPlot.Some? && s.restrictBuilding && e.ownedPlot.value.done))
    ensures v.cancelled <==>
      || v.abortSpawn
      || (&& SpawnConsidered(s, e) && !EntityCapReached(s, e) && !ReasonRefused(e)
          && e.ownedPlot.None? && e.entityType == DroppedItem && s.killRoadItems)
  {
    if !s.creatureSpawn || e.area.None? || e.entityType == ArmorStand then Untouched
    else if e.chunkEntities >= s.maxEntities then CancelAndAbort
    else
      var area := e.area.value;
      var bucket := ReasonBucket(e.reason);
      if bucket.Some? && !BucketAllowed(area, bucket.value) then CancelAndAbort
      else if e.ownedPlot.None? then
        if e.entityType == DroppedItem then
          if s.killRoadItems then Cancel else Untouched
        else if !area.mobSpawning && e.entityType == PlayerEntity then Untouched
        else
          var mobRefused := !area.mobSpawning && e.entityType.IsAlive();
          var miscRefused := !area.miscSpawnUnowned && !e.entityType.IsAlive();
          if mobRefused || miscRefused then CancelAndAbort else Untouched
      else if s.restrictBuilding && e.ownedPlot.value.done then CancelAndAbort
      else Untouched
  }

  /** The entity cap is checked before the spawn reason: a full chunk
      aborts every spawn the handler looks at, whatever its reason, entity
      or plot. */
  lemma EntityCapPrecedesReason(s: Settings, e: SpawnAttempt, reason: string, plot: Option<Plot>)
    requires SpawnConsidered(s, e) && EntityCapReached(s, e)
    ensures OnPreCreatureSpawn(s, e) == CancelAndAbort
    ensures OnPreCreatureSpawn(s, e.(reason := reason, ownedPlot := plot)) == CancelAndAbort
  {
  }

  /** A dropped item off any owned plot whose reason passes is cancelled
      exactly when road items are killed, and its spawn is never aborted. */
  lemma DroppedItemCancelledWithoutAbort(s: Settings, e: SpawnAttempt)
    requires SpawnConsidered(s, e) && !EntityCapReached(s, e) && !ReasonRefused(e)
    requires e.ownedPlot.None? && e.entityType == DroppedItem
    ensures !OnPreCreatureSpawn(s, e).abortSpawn
    ensures OnPreCreatureSpawn(s, e).cancelled == s.killRoadItems
  {
  }

  /** Off any owned plot, a player whose spawn reason passes is never
      touched, whatever the area's mob spawning switch says. */
  lemma PlayerSpawnIgnoresMobSpawning(s: Settings, e: SpawnAttempt)
    requires SpawnConsidered(s, e) && !EntityCapReached(s, e) && !ReasonRefused(e)
    requires e.ownedPlot.None? && e.entityType == PlayerEntity
    ensures OnPreCreatureSpawn(s, e) == Untouched
  {
  }

  /** A spawn reason outside every bucket gets no verdict from the switch:
      the outcome is that of any other reason that is unlisted or whose
      bucket the area allows. */
  lemma UnlistedReasonFallsThrough(s: Settings, e: SpawnAttempt, other: string)
    requires SpawnConsidered(s, e)
    requires ReasonBucket(e.reason).None?
    requires ReasonBucket(other).Some? ==> BucketAllowed(e.area.value, ReasonBucket(other).value)
    ensures OnPreCreatureSpawn(s, e) == OnPreCreatureSpawn(s, e.(reason := other))
  {
  }

  /** Spawns from a player's surroundings (chunk spawning around a player). */
  function OnPlayerNaturallySpawnCreatures(s: Settings, area: Option<Area>): (v: Verdict)
    ensures v == Untouched || v == Cancel
    ensures v.cancelled <==> s.cancelChunkSpawn && area.Some? && !area.value.mobSpawning
  {
    if s.cancelChunkSpawn then
      if area.Some? && !area.value.mobSpawning then Cancel else Untouched
    else Untouched
  }

  /** A spawner about to spawn, by the area of the spawner. */
  function OnPreSpawnerSpawn(s: Settings, area: Option<Area>): (v: Verdict)
    ensures v == Untouched || v == CancelAndAbort
    ensures v.cancelled <==> s.spawnerSpawn && area.Some? && !area.value.mobSpawnerSpawning
  {
    if s.spawnerSpawn then
      if area.Some? && !area.value.mobSpawnerSpawning then CancelAndAbort else Untouched
    else Untouched
  }

  /** The spawner handler and the spawn handler's SPAWNER bucket consult the
      same area switch: a spawn the spawner handler aborts is also aborted
      by the spawn handler when both components are on. */
  lemma SpawnerGatesAgree(s: Settings, e: SpawnAttempt)
    requires s.creatureSpawn && e.entityType != ArmorStand && e.reason == "SPAWNER"
    requires OnPreSpawnerSpawn(s, e.area).abortSpawn
    ensures OnPreCreatureSpawn(s, e).abortSpawn
  {
  }

  // ---------------------------------------------------------------------
  // Tile entity cap
  // ---------------------------------------------------------------------

  /** A block placement: whether the block is a tile state, the area at
      the block and how many tile entities its chunk holds. */
  datatype Placement = Placement(isTileState: bool, area: Option<Area>, chunkTiles: nat)

  function OnBlockPlace(s: Settings, p: Placement): (v: Verdict)
    ensures v == Untouched || v == Verdict(true, false, true, false, Some(TileEntityCapReached(s.maxTiles)))
    ensures v.cancelled <==>
      s.tileEntityCheck && s.chunkProcessor && p.isTileState && p.area.Some? && p.chunkTiles >= s.maxTiles
  {
    if !s.tileEntityCheck || !s.chunkProcessor then Untouched
    else if !p.isTileState then Untouched
    else if p.area.None? then Untouched
    else if p.chunkTiles >= s.maxTiles then
      Verdict(true, false, true, false, Some(TileEntityCapReached(s.maxTiles)))
    else Untouched
  }

  /** A chunk that refuses a tile entity refuses it with more tiles too. */
  lemma TileCapMonotone(s: Settings, p: Placement, more: nat)
    requires OnBlockPlace(s, p).cancelled
    requires more >= p.chunkTiles
    ensures OnBlockPlace(s, p.(chunkTiles := more)) == OnBlockPlace(s, p)
  {
  }

  // ---------------------------------------------------------------------
  // Projectile launch
  // ---------------------------------------------------------------------

  /** A projectile launch: whether a player shot it, the area and owned
      plot at the projectile, the shooter and the permissions they hold. */
  datatype Launch = Launch(
    shooterIsPlayer: bool,
    area: Option<Area>,
    ownedPlot: Option<Plot>,
    shooter: PlayerId,
    perms: set<Permission>)

  /** The denial of a launch for want of `node`. */
  function Deny(node: Permission): Verdict
  {
    Verdict(true, false, false, true, Some(NoPermissionEvent(node)))
  }

  /** The handler looks at the launch at all. */
  predicate LaunchConsidered(s: Settings, l: Launch)
  {
    s.playerProjectile && l.shooterIsPlayer && l.area.Some?
  }

  /** The permission that overrides a refusal at the launch location. */
  function OverrideFor(l: Launch): Permission
  {
    if l.ownedPlot.None? then AdminProjectileRoad
    else if !l.ownedPlot.value.hasOwner then AdminProjectileUnowned
    else AdminProjectileOther
  }

  function OnProjectileLaunch(s: Settings, l: Launch): (v: Verdict)
    ensures v == Untouched || v == Deny(OverrideFor(l))
    ensures v.cancelled ==> OverrideFor(l) !in l.perms
    ensures v.cancelled <==>
      && LaunchConsidered(s, l)
      && OverrideFor(l) !in l.perms
      && (|| (l.ownedPlot.None? && !l.area.value.roadProjectiles)
          || (l.ownedPlot.Some? && !l.ownedPlot.value.hasOwner)
          || (&& l.ownedPlot.Some? && l.ownedPlot.value.hasOwner
              && l.shooter !in l.ownedPlot.value.added && !l.ownedPlot.value.projectiles))
  {
    if !s.playerProjectile || !l.shooterIsPlayer || l.area.None? then Untouched
    else if l.ownedPlot.None? then
      if !l.area.value.roadProjectiles && AdminProjectileRoad !in l.perms then Deny(AdminProjectileRoad)
      else Untouched
    else if !l.ownedPlot.value.hasOwner then
      if AdminProjectileUnowned !in l.perms then Deny(AdminProjectileUnowned) else Untouched
    else if l.shooter !in l.ownedPlot.value.added then
      if !l.ownedPlot.value.projectiles then
        if AdminProjectileOther !in l.perms then Deny(AdminProjectileOther) else Untouched
      else Untouched
    else Untouched
  }

  /** Players added to an owned plot may always shoot from it. */
  lemma AddedMembersNeverDenied(s: Settings, l: Launch)
    requires l.ownedPlot.Some? && l.ownedPlot.value.hasOwner && l.shooter in l.ownedPlot.value.added
    ensures OnProjectileLaunch(s, l) == Untouched
  {
  }

  /** Holding the override permission for the launch location always
      admits the launch; lacking it, a denial also removes the projectile. */
  lemma OverrideAdmitsLaunch(s: Settings, l: Launch)
    ensures OverrideFor(l) in l.perms ==> OnProjectileLaunch(s, l) == Untouched
    ensures OnProjectileLaunch(s, l).cancelled ==> OnProjectileLaunch(s, l).removeProjectile
  {
  }

  // ---------------------------------------------------------------------
  // Beacon effects
  // ---------------------------------------------------------------------

  /** A boolean flag read from one container: its value there, or the
      supplied default when the container does not hold it. */
  function GetBooleanFlagValue(container: Option<bool>, defaultValue: bool): (r: bool)
    ensures r <==> container == Some(true) || (container.None? && defaultValue)
  {
    match container
    case None => defaultValue
    case Some(value) => value
  }

  /** A beacon effect reaching a player: the area and plot at the beacon
      and the plot the player stands on, if any. */
  datatype BeaconEffect = BeaconEffect(area: Option<Area>, beaconPlot: Option<Plot>, playerPlot: Option<Plot>)

  /** Plot equality: the same plot of the same area. */
  predicate SamePlot(p: Plot, q: Option<Plot>)
  {
    q.Some? && p.area == q.value.area && p.id == q.value.id
  }

  function OnBeaconEffect(s: Settings, b: BeaconEffect): (v: Verdict)
    ensures v == Untouched || v == Cancel
    ensures b.area.None? ==> v == Untouched
    ensures b.area.Some? && b.playerPlot.None? ==>
      (v.cancelled <==> b.area.value.roadBeaconEffects == Some(false)
                        || (b.beaconPlot.Some? && s.disableBeaconEffectOverflow))
    ensures b.area.Some? && b.playerPlot.Some? && SamePlot(b.playerPlot.value, b.beaconPlot) ==>
      (v.cancelled <==> b.playerPlot.value.beaconEffects == Some(false))
    ensures b.area.Some? && b.playerPlot.Some? && !SamePlot(b.playerPlot.value, b.beaconPlot) ==>
      (v.cancelled <==> b.playerPlot.value.beaconEffects == Some(false) || s.disableBeaconEffectOverflow)
  {
    if b.area.None? then Untouched
    else if b.playerPlot.None? then
      if !GetBooleanFlagValue(b.area.value.roadBeaconEffects, true)
         || (b.beaconPlot.Some? && s.disableBeaconEffectOverflow)
      then Cancel else Untouched
    else
      var plotBeaconEffects := GetBooleanFlagValue(b.playerPlot.value.beaconEffects, true);
      if SamePlot(b.playerPlot.value, b.beaconPlot) then
        if !plotBeaconEffects then Cancel else Untouched
      else if !plotBeaconEffects || s.disableBeaconEffectOverflow then Cancel
      else Untouched
  }

  /** With overflow disabled, an effect reaches a player only inside the
      beacon's own plot or from a road beacon to a player on the road. */
  lemma BeaconOverflowConfined(s: Settings, b: BeaconEffect)
    requires s.disableBeaconEffectOverflow && b.area.Some?
    requires !OnBeaconEffect(s, b).cancelled
    ensures || (b.playerPlot.None? && b.beaconPlot.None?)
            || (b.playerPlot.Some? && SamePlot(b.playerPlot.value, b.beaconPlot))
  {
  }

  // ---------------------------------------------------------------------
  // Asynchronous tab completion
  // ---------------------------------------------------------------------

  /** What is asked of the command tree: the arguments after the command
      label and whether the buffer ends with a space. */
  datatype TabQuery = TabQuery(args: seq<string>, endsWithSpace: bool)

  /** What the command tree answers: no collection, a fault, or the
      commands whose labels complete the buffer. */
  datatype TabAnswer = NoCollection | Fault | Commands(labels: seq<string>)

  /** How the handler's buffer parsing ends: nothing to do, a query, or an
      array index out of bounds escaping the handler. */
  datatype TabParse = Skip | Query(query: TabQuery) | IndexOutOfBounds

  predicate StartsWithSlash(s: string) { |s| > 0 && s[0] == '/' }

  predicate EndsWithSpace(s: string) { |s| > 0 && s[|s| - 1] == ' ' }

  /** The buffer with one leading slash removed. */
  function Unslashed(buffer: string): string
  {
    if StartsWithSlash(buffer) then buffer[1..] else buffer
  }

  /** The handler's buffer parsing as written: the first token is read
      whenever the split does not yield exactly one token, including when
      it yields none, which happens exactly when the unslashed buffer is
      nothing but spaces (`SplitOnlySeparators`, `SplitEmptyOnlySeparators`). */
  function ParseTabBufferAsWritten(s: Settings, senderIsPlayer: bool, isCommand: bool, buffer: string): (r: TabParse)
    ensures r.IndexOutOfBounds? <==>
      && s.asyncTabCompletion && senderIsPlayer && (isCommand || StartsWithSlash(buffer)) && ' ' in buffer
      && Split(Unslashed(buffer), ' ') == []
  {
    if !s.asyncTabCompletion || !senderIsPlayer then Skip
    else if (!isCommand && !StartsWithSlash(buffer)) || ' ' !in buffer then Skip
    else
      var tokens := Split(Unslashed(buffer), ' ');
      if |tokens| == 1 then Skip
      else if |tokens| == 0 then IndexOutOfBounds
      else if ToLowerEnglish(tokens[0]) !in s.tabCompletedAliases then Skip
      else Query(TabQuery(tokens[1..], EndsWithSpace(Unslashed(buffer))))
  }

  /** The buffer parsing with a split that yields no token treated like one
      that yields a single token. */
  function ParseTabBuffer(s: Settings, senderIsPlayer: bool, isCommand: bool, buffer: string): (r: TabParse)
    ensures !r.IndexOutOfBounds?
    ensures ' ' !in buffer ==> r == Skip
    ensures r.Query? <==>
      && s.asyncTabCompletion && senderIsPlayer && (isCommand || StartsWithSlash(buffer)) && ' ' in buffer
      && |Split(Unslashed(buffer), ' ')| >= 2
      && ToLowerEnglish(Split(Unslashed(buffer), ' ')[0]) in s.tabCompletedAliases
    ensures r.Query? ==> r.query.args == Split(Unslashed(buffer), ' ')[1..]
    ensures r.Query? ==> |r.query.args| >= 1 && forall i :: 0 <= i < |r.query.args| ==> ' ' !in r.query.args[i]
    ensures r.Query? ==> r.query.endsWithSpace == EndsWithSpace(buffer)
  {
    if !s.asyncTabCompletion || !senderIsPlayer then Skip
    else if (!isCommand && !StartsWithSlash(buffer)) || ' ' !in buffer then Skip
    else
      var tokens := Split(Unslashed(buffer), ' ');
      if |tokens| <= 1 then Skip
      else if ToLowerEnglish(tokens[0]) !in s.tabCompletedAliases then Skip
      else Query(TabQuery(tokens[1..], EndsWithSpace(Unslashed(buffer))))
  }

  /** The two parsings agree except where the written one overruns. */
  lemma ParseTabBufferCorrectsOnlyOverrun(s: Settings, senderIsPlayer: bool, isCommand: bool, buffer: string)
    ensures ParseTabBufferAsWritten(s, senderIsPlayer, isCommand, buffer).IndexOutOfBounds? ==>
      ParseTabBuffer(s, senderIsPlayer, isCommand, buffer) == Skip
    ensures !ParseTabBufferAsWritten(s, senderIsPlayer, isCommand, buffer).IndexOutOfBounds? ==>
      ParseTabBuffer(s, senderIsPlayer, isCommand, buffer) == ParseTabBufferAsWritten(s, senderIsPlayer, isCommand, buffer)
  {
  }

  /** The buffer "/ " splits into no token at all, and the handler as
      written reads the first of them. */
  lemma BlankCommandOverruns(s: Settings)
    requires s.asyncTabCompletion
    ensures ParseTabBufferAsWritten(s, true, true, "/ ") == IndexOutOfBounds
    ensures ParseTabBuffer(s, true, true, "/ ") == Skip
  {
    assert Unslashed("/ ") == " ";
    SplitOnlySeparators(" ", ' ');
  }

  /** A label followed by a space alone is a single token: nothing to do. */
  lemma LabelAloneSkips(s: Settings)
    ensures ParseTabBuffer(s, true, true, "/plot ") == Skip
  {
    assert Unslashed("/plot ") == "plot" + [' '];
    SplitWordSpace("plot", ' ');
  }

  /** "/plot h" is two tokens: the handler asks for completions of "h". */
  lemma OneArgumentQueries(s: Settings)
    requires s.asyncTabCompletion && "plot" in s.tabCompletedAliases
    ensures ParseTabBuffer(s, true, true, "/plot h") == Query(TabQuery(["h"], false))
  {
    assert Unslashed("/plot h") == "plot" + [' '] + "h";
    SplitPair("plot", "h", ' ');
    ToLowerEnglishKeepsLowercase("plot");
  }

  /** The alias test ignores the case of ASCII letters: "/PLOT h" asks for
      completions of "h" just as "/plot h" does. */
  lemma UppercaseAliasQueries(s: Settings)
    requires s.asyncTabCompletion && "plot" in s.tabCompletedAliases
    ensures ParseTabBuffer(s, true, true, "/PLOT h") == Query(TabQuery(["h"], false))
    ensures ParseTabBuffer(s, true, true, "/PLOT h") == ParseTabBuffer(s, true, true, "/plot h")
  {
    assert Unslashed("/PLOT h") == "PLOT" + [' '] + "h";
    SplitPair("PLOT", "h", ' ');
    ToLowerEnglishFoldsCase();
    OneArgumentQueries(s);
  }

  /** "/plot home " asks for completions after "home", with the trailing
      space reported. */
  lemma TrailingSpaceQueries(s: Settings)
    requires s.asyncTabCompletion && "plot" in s.tabCompletedAliases
    ensures ParseTabBuffer(s, true, true, "/plot home ") == Query(TabQuery(["home"], true))
  {
    assert Unslashed("/plot home ") == "plot" + [' '] + "home" + [' '];
    SplitPairSpace("plot", "home", ' ');
    ToLowerEnglishKeepsLowercase("plot");
  }

  /** The handler: parses the buffer, copies the arguments after the label
      into a fresh array, asks the command tree (`tab`) and, when it answers
      with commands, collects their labels as the completions. */
  method OnAsyncTabCompletion(
    s: Settings, senderIsPlayer: bool, isCommand: bool, buffer: string,
    tab: TabQuery -> TabAnswer)
    returns (query: Option<TabQuery>, completions: Option<seq<string>>)
    ensures query.Some? <==> ParseTabBuffer(s, senderIsPlayer, isCommand, buffer).Query?
    ensures query.Some? ==> query.value == ParseTabBuffer(s, senderIsPlayer, isCommand, buffer).query
    ensures query.Some? ==>
      && query.value.args == Split(Unslashed(buffer), ' ')[1..]
      && query.value.endsWithSpace == EndsWithSpace(buffer)
    ensures completions.Some? <==> query.Some? && tab(query.value).Commands?
    ensures completions.Some? ==> completions.value == tab(query.value).labels
  {
    query, completions := None, None;
    if !s.asyncTabCompletion {
      return;
    }
    var buf := buffer;
    if !senderIsPlayer {
      return;
    }
    if (!isCommand && !StartsWithSlash(buf)) || ' ' !in buf {
      return;
    }
    if StartsWithSlash(buf) {
      buf := buf[1..];
    }
    var unprocessedArgs := Split(buf, ' ');
    if |unprocessedArgs| <= 1 {
      return;
    }
    if ToLowerEnglish(unprocessedArgs[0]) !in s.tabCompletedAliases {
      return;
    }
    var args := new string[|unprocessedArgs| - 1];
    var i := 0;
    while i < args.Length
      invariant 0 <= i <= args.Length
      invariant forall k :: 0 <= k < i ==> args[k] == unprocessedArgs[k + 1]
    {
      args[i] := unprocessedArgs[i + 1];
      i := i + 1;
    }
    assert args[..] == unprocessedArgs[1..];
    query := Some(TabQuery(args[..], EndsWithSpace(buf)));
    var answer := tab(query.value);
    if answer.Commands? {
      var objects := answer.labels;
      var result: seq<string> := [];
      for j := 0 to |objects|
        invariant result == objects[..j]
      {
        result := result + [objects[j]];
      }
      completions := Some(result);
    }
  }
}
