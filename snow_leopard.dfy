/** A snow leopard: waits on its spawn platform, charges at the goat once
    it comes close, keeps its heading while it runs and falls, dies below
    the camera and may respawn. */
module SnowLeopardEntity {
  import opened Util
  import opened GameTypes
  import Config
  import PlayerEntity

  datatype Phase = Idle | Charging | Falling | Dead

  /** The spawn record the scene passes in. */
  datatype SpawnData = SpawnData(platformIndex: int, x: real, y: real, detectRange: Option<real>, speed: Option<real>)

  /** The leopard's mutable state. */
  datatype Snapshot = Snapshot(
    phase: Phase,
    direction: int,
    x: real,
    y: real,
    vx: real,
    vy: real,
    isOnSpawnPlatform: bool,
    visible: bool,
    active: bool,
    inWorld: bool)

  /** What the transitions read but never write. */
  datatype Params = Params(spawnX: real, spawnY: real, moveSpeed: real, detectRange: real)

  /** Something that happens to a leopard: a frame `update` (with the goat's
      position, if a reference is set), the engine moving it, landing on a
      platform, falling off the map, or a respawn. */
  datatype Event =
    | Frame(player: Option<Point>)
    | Engine(x: real, y: real, vy: real)
    | Landed
    | FellOff
    | Respawn

  /** The vertical band within which the goat is seen. */
  const DETECT_HEIGHT: real := 100.0
  /** A leopard whose vertical speed exceeds this has left the platform. */
  const FALL_SPEED: real := 2.0
  const CHARGE_FACTOR: real := 0.02
  const FALL_FACTOR: real := 0.01

  function Abs(v: real): real
  {
    if v < 0.0 then -v else v
  }

  /** `detectRange || LEOPARD_DETECT_RANGE`. */
  function DetectRangeOf(d: SpawnData): real
  {
    OrDefault(d.detectRange, Config.LEOPARD_DETECT_RANGE)
  }

  /** `speed || LEOPARD_SPEED`. */
  function BaseSpeedOf(d: SpawnData): real
  {
    OrDefault(d.speed, Config.LEOPARD_SPEED)
  }

  /** Whether an idle leopard at (x, y) sees the goat at (px, py). */
  predicate Sees(x: real, y: real, px: real, py: real, detectRange: real)
  {
    Abs(px - x) <= detectRange && Abs(py - y) <= DETECT_HEIGHT
  }

  /** `updateIdle`: start charging towards the goat once it is seen; a goat
      at exactly the leopard's x sends it left. */
  function UpdateIdle(s: Snapshot, p: Params, player: Point): Snapshot
  {
    if Sees(s.x, s.y, player.x, player.y, p.detectRange)
    then s.(phase := Charging, direction := if player.x > s.x then 1 else -1)
    else s
  }

  /** `updateCharging`: run along the heading and switch to falling when
      the engine reports a downward speed above 2. */
  function UpdateCharging(s: Snapshot, p: Params): Snapshot
  {
    var run := s.(vx := p.moveSpeed * s.direction as real * CHARGE_FACTOR);
    if s.vy > FALL_SPEED then run.(phase := Falling) else run
  }

  /** `updateFalling`: keep drifting along the heading. */
  function UpdateFalling(s: Snapshot, p: Params): Snapshot
  {
    s.(vx := p.moveSpeed * s.direction as real * FALL_FACTOR)
  }

  /** `update()`. */
  function FrameUpdate(s: Snapshot, p: Params, player: Option<Point>): Snapshot
  {
    if s.phase == Dead || player.None? then s
    else match s.phase
      case Idle => UpdateIdle(s, p, player.value)
      case Charging => UpdateCharging(s, p)
      case Falling => UpdateFalling(s, p)
  }

  /** `onLandedOnPlatform()`. */
  function Land(s: Snapshot): Snapshot
  {
    if s.phase == Falling then s.(phase := Charging) else s
  }

  /** `onFellOffMap()`: hidden, inactive and out of the physics world. */
  function FallOff(s: Snapshot): Snapshot
  {
    s.(phase := Dead, visible := false, active := false, inWorld := false)
  }

  /** `respawn()`: back on the spawn platform, at rest, waiting. */
  function Reborn(s: Snapshot, p: Params): Snapshot
  {
    Snapshot(Idle, 0, p.spawnX, p.spawnY, 0.0, 0.0, true, true, true, true)
  }

  function Apply(s: Snapshot, p: Params, e: Event): Snapshot
  {
    match e
    case Frame(player) => FrameUpdate(s, p, player)
    case Engine(x, y, vy) => s.(x := x, y := y, vy := vy)
    case Landed => Land(s)
    case FellOff => FallOff(s)
    case Respawn => Reborn(s, p)
  }

  function Run(s: Snapshot, p: Params, events: seq<Event>): Snapshot
    decreases |events|
  {
    if |events| == 0 then s else Apply(Run(s, p, events[..|events| - 1]), p, events[|events| - 1])
  }

  /** The phase and the heading agree: waiting means no heading, running or
      falling means a unit heading. */
  predicate Inv(s: Snapshot)
  {
    (s.phase == Idle ==> s.direction == 0) &&
    (s.phase == Charging || s.phase == Falling ==> s.direction == 1 || s.direction == -1) &&
    -1 <= s.direction <= 1
  }

  // ---------------------------------------------------------------------
  // Properties of the state machine

  /** Updating a dead leopard, or one without a goat reference, changes nothing. */
  lemma UpdateNoOp(s: Snapshot, p: Params, player: Option<Point>)
    requires s.phase == Dead || player.None?
    ensures FrameUpdate(s, p, player) == s
  {
  }

  /** Idle becomes Charging exactly when the goat is within detectRange
      horizontally and 100 vertically; the heading is towards the goat, a tie
      going left. */
  lemma DetectionRule(s: Snapshot, p: Params, player: Point)
    requires s.phase == Idle
    ensures var r := FrameUpdate(s, p, Some(player));
      (r.phase == Charging <==> Abs(player.x - s.x) <= p.detectRange && Abs(player.y - s.y) <= 100.0) &&
      (r.phase != Charging ==> r == s) &&
      (r.phase == Charging ==> (r.direction == 1 <==> player.x > s.x) && (r.direction == -1 <==> player.x <= s.x))
  {
  }

  /** With range 300: 250 across and 40 up is seen, 150 up is not. */
  lemma DetectionExamples(s: Snapshot)
    requires s.phase == Idle && s.x == 100.0 && s.y == 1000.0
    ensures FrameUpdate(s, Params(0.0, 0.0, 150.0, 300.0), Some(Point(350.0, 960.0))).phase == Charging
    ensures FrameUpdate(s, Params(0.0, 0.0, 150.0, 300.0), Some(Point(350.0, 960.0))).direction == 1
    ensures FrameUpdate(s, Params(0.0, 0.0, 150.0, 300.0), Some(Point(350.0, 850.0))) == s
  {
  }

  /** Charging commands 2% of the speed along the heading, keeps vy, and
      falls exactly when vy > 2; Falling commands 1% and stays Falling. */
  lemma RunningCommands(s: Snapshot, p: Params, player: Point)
    ensures s.phase == Charging ==>
      var r := FrameUpdate(s, p, Some(player));
      r.vx == p.moveSpeed * s.direction as real * 0.02 && r.vy == s.vy &&
      (r.phase == Falling <==> s.vy > 2.0) && (r.phase != Falling ==> r.phase == Charging)
    ensures s.phase == Falling ==>
      var r := FrameUpdate(s, p, Some(player));
      r.vx == p.moveSpeed * s.direction as real * 0.01 && r.phase == Falling
  {
  }

  /** Landing turns Falling into Charging and leaves every other phase alone. */
  lemma LandingRule(s: Snapshot)
    ensures s.phase == Falling ==> Land(s) == s.(phase := Charging)
    ensures s.phase != Falling ==> Land(s) == s
  {
  }

  /** Falling off kills from any phase; a respawn waits on the spawn
      platform at the spawn point, at rest. */
  lemma DeathAndRespawn(s: Snapshot, p: Params)
    ensures var d := FallOff(s); d.phase == Dead && !d.visible && !d.active && !d.inWorld
    ensures var r := Reborn(s, p);
      r.phase == Idle && r.direction == 0 && r.isOnSpawnPlatform &&
      r.x == p.spawnX && r.y == p.spawnY && r.vx == 0.0 && r.vy == 0.0 &&
      r.visible && r.active && r.inWorld
  {
  }

  /** Every event keeps the phase/heading invariant. */
  lemma ApplyKeepsInv(s: Snapshot, p: Params, e: Event)
    requires Inv(s)
    ensures Inv(Apply(s, p, e))
  {
  }

  lemma {:induction false} RunKeepsInv(s: Snapshot, p: Params, events: seq<Event>)
    requires Inv(s)
    ensures Inv(Run(s, p, events))
    decreases |events|
  {
    if |events| > 0 {
      RunKeepsInv(s, p, events[..|events| - 1]);
      ApplyKeepsInv(Run(s, p, events[..|events| - 1]), p, events[|events| - 1]);
    }
  }

  /** The heading locks on detection: without a respawn, a leopard that has
      left Idle never returns to it and never changes its heading. */
  lemma {:induction false} HeadingLocked(s: Snapshot, p: Params, events: seq<Event>)
    requires s.phase != Idle
    requires forall k :: 0 <= k < |events| ==> !events[k].Respawn?
    ensures Run(s, p, events).phase != Idle
    ensures Run(s, p, events).direction == s.direction
    decreases |events|
  {
    if |events| > 0 {
      HeadingLocked(s, p, events[..|events| - 1]);
    }
  }

  /** Once dead, only a respawn brings a leopard back. */
  lemma {:induction false} DeadUntilRespawn(s: Snapshot, p: Params, events: seq<Event>)
    requires s.phase == Dead
    requires forall k :: 0 <= k < |events| ==> !events[k].Respawn?
    ensures Run(s, p, events).phase == Dead
    decreases |events|
  {
    if |events| > 0 {
      DeadUntilRespawn(s, p, events[..|events| - 1]);
    }
  }

  // ---------------------------------------------------------------------
  // The sprite as a stateful object

  class SnowLeopard {
    var x: real
    var y: real
    var vx: real
    var vy: real
    var spawnX: real
    const spawnY: real
    const spawnPlatformIndex: int
    const detectRange: real
    const baseSpeed: real
    var moveSpeed: real
    var screenScaleX: real
    var phase: Phase
    var isOnSpawnPlatform: bool
    var direction: int
    var playerRef: PlayerEntity.Player?
    var visible: bool
    var active: bool
    var inWorld: bool
    /** Calls of `onHitWall`, a member the leopard's code does not define. */
    var hitWallCalls: nat

    function State(): Snapshot
      reads this
    {
      Snapshot(phase, direction, x, y, vx, vy, isOnSpawnPlatform, visible, active, inWorld)
    }

    function Parameters(): Params
      reads this
    {
      Params(spawnX, spawnY, moveSpeed, detectRange)
    }

    /** The goat's position as `update` reads it. */
    function PlayerPos(): Option<Point>
      reads this, playerRef
    {
      if playerRef == null then None else Some(Point(playerRef.x, playerRef.y))
    }

    predicate Valid()
      reads this
    {
      Inv(State()) && moveSpeed == baseSpeed * screenScaleX
    }

    /** `new SnowLeopard(scene, data, scaleX)`. */
    constructor (data: SpawnData, scaleX: real)
      ensures Valid()
      ensures State() == Snapshot(Idle, 0, data.x, data.y, 0.0, 0.0, true, true, true, true)
      ensures Parameters() == Params(data.x, data.y, BaseSpeedOf(data) * scaleX, DetectRangeOf(data))
      ensures spawnPlatformIndex == data.platformIndex && screenScaleX == scaleX
      ensures baseSpeed == BaseSpeedOf(data)
      ensures playerRef == null && hitWallCalls == 0
    {
      var base := OrDefault(data.speed, Config.LEOPARD_SPEED);
      x, y, vx, vy := data.x, data.y, 0.0, 0.0;
      screenScaleX := scaleX;
      spawnX, spawnY := data.x, data.y;
      spawnPlatformIndex := data.platformIndex;
      detectRange := OrDefault(data.detectRange, Config.LEOPARD_DETECT_RANGE);
      baseSpeed := base;
      moveSpeed := base * scaleX;
      phase := Idle;
      isOnSpawnPlatform := true;
      direction := 0;
      playerRef := null;
      visible, active, inWorld := true, true, true;
      hitWallCalls := 0;
    }

    method SetPlayerRef(p: PlayerEntity.Player)
      modifies this
      ensures playerRef == p
      ensures State() == old(State()) && Parameters() == old(Parameters())
      ensures hitWallCalls == old(hitWallCalls) && screenScaleX == old(screenScaleX)
    {
      playerRef := p;
    }

    /** `update()`. */
    method Update()
      modifies this
      ensures State() == FrameUpdate(old(State()), old(Parameters()), old(PlayerPos()))
      ensures Parameters() == old(Parameters()) && playerRef == old(playerRef)
      ensures hitWallCalls == old(hitWallCalls) && screenScaleX == old(screenScaleX)
    {
      if phase == Dead {
        return;
      }
      if playerRef == null {
        return;
      }
      var px, py := playerRef.x, playerRef.y;
      match phase {
        case Idle =>
          if Abs(px - x) <= detectRange && Abs(py - y) <= DETECT_HEIGHT {
            phase := Charging;
            direction := if px > x then 1 else -1;
          }
        case Charging =>
          vx := moveSpeed * direction as real * CHARGE_FACTOR;
          if vy > FALL_SPEED {
            phase := Falling;
          }
        case Falling =>
          vx := moveSpeed * direction as real * FALL_FACTOR;
      }
    }

    method OnLandedOnPlatform()
      modifies this
      ensures State() == Land(old(State()))
      ensures Parameters() == old(Parameters()) && playerRef == old(playerRef)
      ensures hitWallCalls == old(hitWallCalls) && screenScaleX == old(screenScaleX)
    {
      if phase == Falling {
        phase := Charging;
      }
    }

    method OnFellOffMap()
      modifies this
      ensures State() == FallOff(old(State()))
      ensures Parameters() == old(Parameters()) && playerRef == old(playerRef)
      ensures hitWallCalls == old(hitWallCalls) && screenScaleX == old(screenScaleX)
    {
      phase := Dead;
      visible := false;
      active := false;
      inWorld := false;
    }

    method Respawn()
      modifies this
      ensures State() == Reborn(old(State()), old(Parameters()))
      ensures Parameters() == old(Parameters()) && playerRef == old(playerRef)
      ensures hitWallCalls == old(hitWallCalls) && screenScaleX == old(screenScaleX)
    {
      BackToSpawn();
      phase, isOnSpawnPlatform := Idle, true;
      visible, active, inWorld := true, true, true;
    }

    /** The motion part of `respawn()`: at the spawn point, at rest. */
    method BackToSpawn()
      modifies this`x, this`y, this`vx, this`vy, this`direction
      ensures State() == old(State()).(x := spawnX, y := spawnY, vx := 0.0, vy := 0.0, direction := 0)
    {
      x, y := spawnX, spawnY;
      vx, vy, direction := 0.0, 0.0, 0;
    }

    /** The scene's `onHitWall` call: only recorded. */
    method OnHitWall()
      modifies this
      ensures hitWallCalls == old(hitWallCalls) + 1
      ensures State() == old(State()) && Parameters() == old(Parameters()) && playerRef == old(playerRef)
      ensures screenScaleX == old(screenScaleX)
    {
      hitWallCalls := hitWallCalls + 1;
    }

    function IsAlive(): bool
      reads this
    {
      phase != Dead
    }

    function IsDead(): bool
      reads this
    {
      phase == Dead
    }

    method SetOnSpawnPlatform(value: bool)
      modifies this
      ensures State() == old(State()).(isOnSpawnPlatform := value)
      ensures Parameters() == old(Parameters()) && playerRef == old(playerRef)
      ensures hitWallCalls == old(hitWallCalls) && screenScaleX == old(screenScaleX)
    {
      isOnSpawnPlatform := value;
    }

    /** `setScreenScaleX`: recomputed from the base speed, so calls never compound. */
    method SetScreenScaleX(scaleX: real)
      modifies this
      ensures screenScaleX == scaleX && moveSpeed == baseSpeed * scaleX
      ensures Parameters() == old(Parameters()).(moveSpeed := baseSpeed * scaleX)
      ensures State() == old(State()) && playerRef == old(playerRef)
      ensures hitWallCalls == old(hitWallCalls)
    {
      screenScaleX := scaleX;
      moveSpeed := baseSpeed * screenScaleX;
    }

    method SetSpawnX(nx: real)
      modifies this
      ensures Parameters() == old(Parameters()).(spawnX := nx)
      ensures State() == old(State()) && playerRef == old(playerRef)
      ensures hitWallCalls == old(hitWallCalls) && screenScaleX == old(screenScaleX)
    {
      spawnX := nx;
    }

    /** The engine moving the leopard, or the scene's `setPosition`. */
    method SetPosition(nx: real, ny: real)
      modifies this
      ensures State() == old(State()).(x := nx, y := ny)
      ensures Parameters() == old(Parameters()) && playerRef == old(playerRef)
      ensures hitWallCalls == old(hitWallCalls) && screenScaleX == old(screenScaleX)
    {
      x, y := nx, ny;
    }
  }

  /** Alive and dead are complements, and both read only the phase. */
  lemma AliveIffNotDead(l: SnowLeopard)
    ensures l.IsAlive() <==> !l.IsDead()
    ensures l.IsAlive() <==> l.phase != Dead
  {
  }
}
