/** Values shared by the listener and the command front end: identities of
    plot areas, plots and players, locations, and the permission nodes the
    two core classes consult. */
module Domain {

  datatype Option<+T> = None | Some(value: T)

  /** Identity of a plot area. The listener compares PlotArea objects by
      reference; distinct areas have distinct ids. */
  type AreaId = nat

  /** Identity of a player (the UUID). */
  type PlayerId = nat

  /** Grid address of a plot inside its area. */
  datatype PlotId = PlotId(x: int, y: int)

  /** A plot named by the area that holds it and its grid address. */
  datatype PlotRef = PlotRef(area: AreaId, id: PlotId)

  /** A world location (world name and block coordinates). */
  datatype Loc = Loc(world: string, x: int, y: int, z: int)

  /** The permission nodes the two core classes check. */
  datatype Permission =
    | AdminProjectileRoad
    | AdminProjectileUnowned
    | AdminProjectileOther
    | Admin
    | AdminAreaSudo
    | AdminBypassEcon
}
