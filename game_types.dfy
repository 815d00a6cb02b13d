/** The game's shared record types: platform and obstacle descriptors and the
    result handed from the level to the result screen. */
module GameTypes {
  import opened Util

  datatype PlatformShape = Flat | L | LReverse | T | SlopeUp | SlopeDown

  /** Texture keys. `PlatformGoal` is never authored; the factory substitutes it. */
  datatype Texture = PlatformTexture | PlatformIce | PlatformTilted | PlatformGoal

  /** An authored platform: optional fields are `undefined` when absent, and an
      absent `isGoal` reads as false. */
  datatype PlatformData = PlatformData(
    x: real,
    y: real,
    texture: Texture,
    width: Option<real>,
    height: Option<real>,
    friction: Option<real>,
    angle: Option<real>,
    shape: Option<PlatformShape>,
    isGoal: bool)

  datatype ObstacleType = BirdObstacle | LeopardObstacle | MovingPlatform

  datatype Pattern = Horizontal | Vertical | Chase

  datatype ObstacleData = ObstacleData(
    kind: ObstacleType,
    x: real,
    y: real,
    pattern: Pattern,
    speed: real,
    range: Option<real>)

  /** A position in world coordinates. */
  datatype Point = Point(x: real, y: real)

  /** What the level hands to the result screen when a run ends. */
  datatype GameResult = GameResult(success: bool, clearTime: nat, height: nat)
}
