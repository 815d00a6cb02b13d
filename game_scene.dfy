/** The level scene as an object: it builds the map, the birds, the leopards
    and the goat, then reacts to engine callbacks (contact events, frames and
    canvas resizes) by updating its fields and the entities it owns.  Each
    handler is proved to do what the pure rules of `Contacts` and
    `SceneRules` say. */
module GameScene {
  import opened Util
  import opened GameTypes
  import Config
  import PlatformFactory
  import PlayerEntity
  import BirdEntity
  import SnowLeopardEntity
  import Contacts
  import opened SceneRules

  // ---------------------------------------------------------------------
  // Creating the level

  /** `createMap`: one pass over the descriptors, recording every body's
      scale-1 geometry and its descriptor's flags. */
  method CreateMap(descs: seq<PlatformData>, scale: real) returns (m: MapBuild)
    requires scale != 0.0
    ensures m == BuildMap(descs, scale)
  {
    m := MapBuild([], [], None, None);
    var i := 0;
    while i < |descs|
      invariant 0 <= i <= |descs|
      invariant m == BuildMap(descs[..i], scale)
    {
      var p := descs[i];
      var sp := Scaled(p, scale);
      var bodies := PlatformFactory.BodiesOf(sp);
      BuildMapSnoc(descs, i, scale);
      m := AddPlatformBodies(m, bodies, i, p, sp, scale);
      i := i + 1;
    }
    assert descs[..|descs|] == descs;
  }

  lemma BuildMapSnoc(descs: seq<PlatformData>, i: nat, scale: real)
    requires scale != 0.0 && i < |descs|
    ensures BuildMap(descs[..i + 1], scale) ==
      AddBodies(BuildMap(descs[..i], scale), PlatformFactory.BodiesOf(Scaled(descs[i], scale)), i, descs[i], Scaled(descs[i], scale), scale)
  {
    assert descs[..i + 1][..i] == descs[..i];
  }

  /** The body of `createMap`'s loop for one descriptor whose bodies the
      factory made: record each body, flag it, and note the goal door. */
  method AddPlatformBodies(m0: MapBuild, bodies: seq<PlatformFactory.Rect>, index: nat, p: PlatformData, sp: PlatformData, scale: real)
    returns (m: MapBuild)
    requires scale != 0.0
    ensures m == AddBodies(m0, bodies, index, p, sp, scale)
  {
    var base := |m0.platforms|;
    var records := BodyRecords(bodies, base, scale);
    var imgs := BodyImages(bodies, index, p.texture == PlatformIce, p.isGoal);
    var goal := m0.goalPlatform;
    var sensor := m0.sensor;
    if p.isGoal && |bodies| > 0 {
      goal := Some(base);
      sensor := Some(DoorSensor(sp.x, sp.y));
    }
    m := MapBuild(m0.platforms + imgs, m0.records + records, goal, sensor);
  }

  /** The records of one descriptor's bodies, numbered from `base`. */
  method BodyRecords(bodies: seq<PlatformFactory.Rect>, base: nat, scale: real) returns (records: seq<BodyRecord>)
    requires scale != 0.0
    ensures records == RecordsOf(bodies, base, scale)
  {
    records := [];
    var j := 0;
    while j < |bodies|
      invariant 0 <= j <= |bodies|
      invariant records == RecordsOf(bodies[..j], base, scale)
    {
      assert bodies[..j + 1][..j] == bodies[..j];
      records := records + [BodyRecord(base + j, bodies[j].x / scale, bodies[j].width / scale)];
      j := j + 1;
    }
    assert bodies[..|bodies|] == bodies;
  }

  /** The images of one descriptor's bodies. */
  method BodyImages(bodies: seq<PlatformFactory.Rect>, index: nat, isIce: bool, isGoal: bool) returns (imgs: seq<PlatformImage>)
    ensures imgs == ImagesOf(bodies, index, isIce, isGoal)
  {
    imgs := [];
    var j := 0;
    while j < |bodies|
      invariant 0 <= j <= |bodies|
      invariant imgs == ImagesOf(bodies[..j], index, isIce, isGoal)
    {
      assert bodies[..j + 1][..j] == bodies[..j];
      var b := bodies[j];
      imgs := imgs + [PlatformImage(b.x, b.y, b.width, b.height, index, isIce, isGoal)];
      j := j + 1;
    }
    assert bodies[..|bodies|] == bodies;
  }

  /** A bird descriptor as `createBirds` passes it on: x scaled, and a truthy
      range scaled (a missing or zero range stays missing). */
  function ScaledBird(o: ObstacleData, scale: real): ObstacleData
  {
    o.(x := o.x * scale, range := if o.range.Some? && o.range.value != 0.0 then Some(o.range.value * scale) else None)
  }

  /** The descriptors `createBirds` builds birds from: the bird-typed
      obstacles, in order, scaled. */
  function BirdData(obstacles: seq<ObstacleData>, scale: real): (r: seq<ObstacleData>)
    ensures |r| <= |obstacles|
    decreases |obstacles|
  {
    if |obstacles| == 0 then []
    else
      var o := obstacles[|obstacles| - 1];
      var rest := BirdData(obstacles[..|obstacles| - 1], scale);
      if o.kind == BirdObstacle then rest + [ScaledBird(o, scale)] else rest
  }

  /** Only bird-typed obstacles become birds. */
  lemma {:induction false} BirdDataFromBirds(obstacles: seq<ObstacleData>, scale: real, k: nat)
    requires k < |BirdData(obstacles, scale)|
    ensures exists i :: (0 <= i < |obstacles| && obstacles[i].kind == BirdObstacle &&
                         BirdData(obstacles, scale)[k] == ScaledBird(obstacles[i], scale))
    decreases |obstacles|
  {
    var prefix := obstacles[..|obstacles| - 1];
    var last := obstacles[|obstacles| - 1];
    var r0 := BirdData(prefix, scale);
    if k < |r0| {
      BirdDataFromBirds(prefix, scale, k);
      var i :| 0 <= i < |prefix| && prefix[i].kind == BirdObstacle && r0[k] == ScaledBird(prefix[i], scale);
      assert obstacles[i] == prefix[i];
      assert BirdData(obstacles, scale)[k] == r0[k];
    } else {
      assert last.kind == BirdObstacle && BirdData(obstacles, scale) == r0 + [ScaledBird(last, scale)];
    }
  }

  /** When every obstacle is a bird, each one becomes a bird, in order. */
  lemma {:induction false} BirdDataAllBirds(obstacles: seq<ObstacleData>, scale: real)
    requires forall i :: 0 <= i < |obstacles| ==> obstacles[i].kind == BirdObstacle
    ensures |BirdData(obstacles, scale)| == |obstacles|
    ensures forall i :: 0 <= i < |obstacles| ==> BirdData(obstacles, scale)[i] == ScaledBird(obstacles[i], scale)
    decreases |obstacles|
  {
    if |obstacles| > 0 {
      var prefix := obstacles[..|obstacles| - 1];
      assert forall i :: 0 <= i < |prefix| ==> prefix[i] == obstacles[i];
      BirdDataAllBirds(prefix, scale);
    }
  }

  /** What a freshly made bird holds, by `new Bird(scene, data, scaleX)`. */
  predicate BirdFrom(b: BirdEntity.Bird, d: ObstacleData, scale: real, coin: bool)
    reads b
  {
    b.Valid() && b.x == d.x && b.y == d.y && b.vx == 0.0 && b.vy == 0.0 &&
    b.startX == d.x && b.startY == d.y &&
    b.moveRange == BirdEntity.RangeOf(d) && b.baseSpeed == BirdEntity.BaseSpeedOf(d) &&
    b.screenScaleX == scale && b.direction == BirdEntity.InitialDirection(coin)
  }

  /** `createBirds`; `coins[k]` is the random draw of the k-th bird. */
  method CreateBirds(obstacles: seq<ObstacleData>, scale: real, coins: seq<bool>) returns (birds: seq<BirdEntity.Bird>)
    requires |coins| >= |obstacles|
    ensures |birds| == |BirdData(obstacles, scale)|
    ensures forall k :: 0 <= k < |birds| ==> fresh(birds[k])
    ensures forall i, j :: 0 <= i < j < |birds| ==> birds[i] != birds[j]
    ensures forall k :: 0 <= k < |birds| ==> BirdFrom(birds[k], BirdData(obstacles, scale)[k], scale, coins[k])
  {
    birds := [];
    var i := 0;
    while i < |obstacles|
      invariant 0 <= i <= |obstacles|
      invariant |birds| == |BirdData(obstacles[..i], scale)| <= i
      invariant forall k :: 0 <= k < |birds| ==> fresh(birds[k])
      invariant forall a, b :: 0 <= a < b < |birds| ==> birds[a] != birds[b]
      invariant forall k :: 0 <= k < |birds| ==> BirdFrom(birds[k], BirdData(obstacles[..i], scale)[k], scale, coins[k])
    {
      assert obstacles[..i + 1][..i] == obstacles[..i];
      var data := obstacles[i];
      if data.kind == BirdObstacle {
        var scaled := ScaledBird(data, scale);
        var bird := new BirdEntity.Bird(scaled, scale, coins[|birds|]);
        birds := birds + [bird];
      }
      i := i + 1;
    }
    assert obstacles[..|obstacles|] == obstacles;
  }

  /** A leopard descriptor as `createSnowLeopards` passes it on: x scaled and
      a truthy detection range scaled. */
  function ScaledSpawn(d: SnowLeopardEntity.SpawnData, scale: real): SnowLeopardEntity.SpawnData
  {
    d.(x := d.x * scale,
       detectRange := if d.detectRange.Some? && d.detectRange.value != 0.0 then Some(d.detectRange.value * scale) else None)
  }

  /** What a freshly made leopard holds, by `new SnowLeopard(scene, data, scaleX)`. */
  predicate LeopardFrom(l: SnowLeopardEntity.SnowLeopard, d: SnowLeopardEntity.SpawnData, scale: real)
    reads l
  {
    l.State() == SnowLeopardEntity.Snapshot(SnowLeopardEntity.Idle, 0, d.x, d.y, 0.0, 0.0, true, true, true, true) &&
    l.Parameters() == SnowLeopardEntity.Params(d.x, d.y, SnowLeopardEntity.BaseSpeedOf(d) * scale, SnowLeopardEntity.DetectRangeOf(d)) &&
    l.screenScaleX == scale && l.baseSpeed == SnowLeopardEntity.BaseSpeedOf(d) && l.hitWallCalls == 0
  }

  /** `createSnowLeopards`: one leopard per spawn descriptor, in order. */
  method CreateSnowLeopards(spawns: seq<SnowLeopardEntity.SpawnData>, scale: real) returns (leopards: seq<SnowLeopardEntity.SnowLeopard>)
    ensures |leopards| == |spawns|
    ensures forall k :: 0 <= k < |leopards| ==> fresh(leopards[k])
    ensures forall i, j :: 0 <= i < j < |leopards| ==> leopards[i] != leopards[j]
    ensures forall k :: 0 <= k < |leopards| ==> LeopardFrom(leopards[k], ScaledSpawn(spawns[k], scale), scale)
    ensures forall k :: 0 <= k < |leopards| ==> leopards[k].playerRef == null
  {
    leopards := [];
    var i := 0;
    while i < |spawns|
      invariant 0 <= i <= |spawns| && |leopards| == i
      invariant forall k :: 0 <= k < i ==> fresh(leopards[k])
      invariant forall a, b :: 0 <= a < b < i ==> leopards[a] != leopards[b]
      invariant forall k :: 0 <= k < i ==> LeopardFrom(leopards[k], ScaledSpawn(spawns[k], scale), scale)
      invariant forall k :: 0 <= k < i ==> leopards[k].playerRef == null
    {
      var leopard := new SnowLeopardEntity.SnowLeopard(ScaledSpawn(spawns[i], scale), scale);
      leopards := leopards + [leopard];
      i := i + 1;
    }
  }

  /** The `setPlayerRef` pass over the leopards. */
  method SetPlayerRefs(leopards: seq<SnowLeopardEntity.SnowLeopard>, p: PlayerEntity.Player)
    modifies leopards
    ensures forall k :: 0 <= k < |leopards| ==> leopards[k].playerRef == p
    ensures forall k :: 0 <= k < |leopards| ==>
      leopards[k].State() == old(leopards[k].State()) && leopards[k].Parameters() == old(leopards[k].Parameters()) &&
      leopards[k].screenScaleX == old(leopards[k].screenScaleX) && leopards[k].hitWallCalls == old(leopards[k].hitWallCalls)
  {
    var i := 0;
    while i < |leopards|
      invariant 0 <= i <= |leopards|
      invariant forall k :: 0 <= k < i ==> leopards[k].playerRef == p
      invariant forall k :: 0 <= k < |leopards| ==>
        leopards[k].State() == old(leopards[k].State()) && leopards[k].Parameters() == old(leopards[k].Parameters()) &&
        leopards[k].screenScaleX == old(leopards[k].screenScaleX) && leopards[k].hitWallCalls == old(leopards[k].hitWallCalls)
    {
      leopards[i].SetPlayerRef(p);
      i := i + 1;
    }
  }

  /** The object-creating part of `create()`: the map, the birds, the
      leopards and the goat at its start position, which the leopards then
      chase. */
  method Populate(layout: Layout, scale: real, keyboard: bool, coins: seq<bool>)
    returns (m: MapBuild, birds: seq<BirdEntity.Bird>, leopards: seq<SnowLeopardEntity.SnowLeopard>, player: PlayerEntity.Player)
    requires scale != 0.0 && |layout.platforms| > 0 && |coins| >= |layout.obstacles|
    ensures m == BuildMap(layout.platforms, scale) && WellBuilt(m, layout.platforms, scale)
    ensures fresh(player) && player.maxPower == Config.MAX_JUMP_POWER
    ensures var start := StartPosition(layout.platforms, Config.START_PLATFORM_INDEX, scale);
      player.x == start.x && player.y == start.y
    ensures player.State() == PlayerEntity.Initial(keyboard) && player.hooks == [] && player.events == []
    ensures |birds| == |BirdData(layout.obstacles, scale)|
    ensures forall i, j :: 0 <= i < j < |birds| ==> birds[i] != birds[j]
    ensures forall k :: 0 <= k < |birds| ==> fresh(birds[k])
    ensures forall k :: 0 <= k < |birds| ==> BirdFrom(birds[k], BirdData(layout.obstacles, scale)[k], scale, coins[k])
    ensures |leopards| == |layout.leopards|
    ensures forall i, j :: 0 <= i < j < |leopards| ==> leopards[i] != leopards[j]
    ensures forall k :: 0 <= k < |leopards| ==> fresh(leopards[k])
    ensures forall k :: 0 <= k < |leopards| ==> LeopardFrom(leopards[k], ScaledSpawn(layout.leopards[k], scale), scale)
    ensures forall k :: 0 <= k < |leopards| ==> leopards[k].playerRef == player
  {
    m := CreateMap(layout.platforms, scale);
    BuildMapWellBuilt(layout.platforms, scale);
    birds := CreateBirds(layout.obstacles, scale, coins);
    leopards := CreateSnowLeopards(layout.leopards, scale);
    var start := StartPosition(layout.platforms, Config.START_PLATFORM_INDEX, scale);
    player := new PlayerEntity.Player(start.x, start.y, keyboard);
    SetPlayerRefs(leopards, player);
  }

  // ---------------------------------------------------------------------
  // Views of the owned entities

  function PlayerViewOf(p: PlayerEntity.Player): Contacts.PlayerView
    reads p
  {
    Contacts.PlayerView(p.isGrounded, p.isOnGoalPlatform, p.vx, p.vy, p.hooks)
  }

  function LeopardViewOf(l: SnowLeopardEntity.SnowLeopard): Contacts.LeopardView
    reads l
  {
    Contacts.LeopardView(l.phase, l.hitWallCalls)
  }

  function LeopardViews(ls: seq<SnowLeopardEntity.SnowLeopard>): (r: seq<Contacts.LeopardView>)
    reads ls
    ensures |r| == |ls|
    ensures forall k :: 0 <= k < |ls| ==> r[k] == LeopardViewOf(ls[k])
  {
    if |ls| == 0 then []
    else LeopardViews(ls[..|ls| - 1]) + [LeopardViewOf(ls[|ls| - 1])]
  }

  function IceFlags(ps: seq<PlatformImage>): (r: seq<bool>)
    ensures |r| == |ps|
    ensures forall k :: 0 <= k < |ps| ==> r[k] == ps[k].isIce
  {
    if |ps| == 0 then [] else IceFlags(ps[..|ps| - 1]) + [ps[|ps| - 1].isIce]
  }

  function Directions(bs: seq<BirdEntity.Bird>): (r: seq<int>)
    reads bs
    ensures |r| == |bs|
    ensures forall k :: 0 <= k < |bs| ==> r[k] == bs[k].direction
  {
    if |bs| == 0 then [] else Directions(bs[..|bs| - 1]) + [bs[|bs| - 1].direction]
  }

  /** One bird's frame: the patrol rule on its previous state. */
  twostate predicate Patrolled(b: BirdEntity.Bird)
    reads b
  {
    b.direction == BirdEntity.PatrolDirection(old(b.x), old(b.moveSpeed), old(b.direction), old(b.startX), b.moveRange) &&
    b.vx == b.moveSpeed * b.direction as real && b.vy == 0.0 &&
    b.x == old(b.x) && b.y == old(b.y) && b.startX == old(b.startX) &&
    b.moveSpeed == old(b.moveSpeed) && b.screenScaleX == old(b.screenScaleX)
  }

  /** A leopard whose contact reactions changed at most its phase and its
      wall-hit count. */
  twostate predicate OnlyPhaseChanged(l: SnowLeopardEntity.SnowLeopard)
    reads l
  {
    l.State() == old(l.State()).(phase := l.phase) && l.Parameters() == old(l.Parameters()) &&
    l.playerRef == old(l.playerRef) && l.screenScaleX == old(l.screenScaleX)
  }

  /** One leopard after its `update()` with the goat at `pos`; its other
      fields as they were. */
  twostate predicate FrameUpdated(l: SnowLeopardEntity.SnowLeopard, pos: Option<Point>)
    reads l
  {
    l.State() == SnowLeopardEntity.FrameUpdate(old(l.State()), old(l.Parameters()), pos) &&
    l.Parameters() == old(l.Parameters()) && l.hitWallCalls == old(l.hitWallCalls) && l.screenScaleX == old(l.screenScaleX)
  }

  /** One leopard after the fall and respawn check; its other fields as
      they were. */
  twostate predicate FallChecked(l: SnowLeopardEntity.SnowLeopard, cameraY: real, cameraHeight: real, disableRespawn: bool)
    reads l
  {
    l.State() == FallAndRespawn(old(l.State()), old(l.Parameters()), cameraY, cameraHeight, disableRespawn) &&
    l.Parameters() == old(l.Parameters()) && l.hitWallCalls == old(l.hitWallCalls) && l.screenScaleX == old(l.screenScaleX)
  }

  /** One bird under a resize from scale `s1` to `s2`: moved by the scale
      ratio, its patrol re-centred there and its speed recomputed. */
  twostate predicate BirdResized(b: BirdEntity.Bird, s1: real, s2: real)
    requires s1 != 0.0
    reads b
  {
    b.x == ResizeX(old(b.x), s1, s2) && b.y == old(b.y) && b.startX == b.x &&
    b.screenScaleX == s2 && b.moveSpeed == b.baseSpeed * s2 &&
    b.direction == old(b.direction) && b.vx == old(b.vx) && b.vy == old(b.vy)
  }

  /** One leopard under a resize: moved by the scale ratio, its spawn x moved
      with it and its speed recomputed. */
  twostate predicate LeopardResized(l: SnowLeopardEntity.SnowLeopard, s1: real, s2: real)
    requires s1 != 0.0
    reads l
  {
    l.State() == old(l.State()).(x := ResizeX(old(l.x), s1, s2)) &&
    l.Parameters() == old(l.Parameters()).(spawnX := l.x, moveSpeed := l.baseSpeed * s2) &&
    l.screenScaleX == s2 && l.playerRef == old(l.playerRef) && l.hitWallCalls == old(l.hitWallCalls)
  }

  method ResizeBird(b: BirdEntity.Bird, s1: real, s2: real)
    requires b.Valid() && s1 != 0.0
    modifies b
    ensures b.Valid() && BirdResized(b, s1, s2)
  {
    b.SetPosition(b.x * (s2 / s1), b.y);
    b.SetStartX(b.x);
    b.SetScreenScaleX(s2);
  }

  method ResizeLeopard(l: SnowLeopardEntity.SnowLeopard, s1: real, s2: real)
    requires s1 != 0.0
    modifies l
    ensures LeopardResized(l, s1, s2)
  {
    l.SetPosition(l.x * (s2 / s1), l.y);
    l.SetSpawnX(l.x);
    l.SetScreenScaleX(s2);
  }

  /** One leopard's step of `checkSnowLeopardFallAndRespawn`; a respawned
      leopard is pointed at `player` again. */
  method FallCheck(l: SnowLeopardEntity.SnowLeopard, player: PlayerEntity.Player,
                   cameraY: real, cameraHeight: real, disableRespawn: bool)
    modifies l
    ensures l.State() == FallAndRespawn(old(l.State()), old(l.Parameters()), cameraY, cameraHeight, disableRespawn)
    ensures l.playerRef == if Respawned(old(l.State()), old(l.Parameters()), cameraY, cameraHeight, disableRespawn)
      then player else old(l.playerRef)
    ensures l.Parameters() == old(l.Parameters()) && l.hitWallCalls == old(l.hitWallCalls)
    ensures l.screenScaleX == old(l.screenScaleX)
  {
    var cameraBottom := cameraY + cameraHeight;
    if l.IsAlive() && l.y > cameraBottom + 50.0 {
      l.OnFellOffMap();
    }
    if disableRespawn {
      return;
    }
    if l.IsDead() {
      if cameraY > l.spawnY + 200.0 {
        l.Respawn();
        l.SetPlayerRef(player);
      }
    }
  }

  /** The scene's fields that the contact handlers never write. */
  datatype Settled = Settled(
    build: MapBuild, startTime: int, scaleX: real, isMobile: bool, isInitialized: bool,
    restarts: nat, timerText: string, heightText: string,
    playerX: real, playerY: real, jumpPower: real, isCharging: bool, direction: int,
    events: seq<PlayerEntity.Event>)

  class Scene {
    /** The descriptor lists of the scene's screen mode. */
    const descriptors: seq<PlatformData>
    const player: PlayerEntity.Player
    const birds: seq<BirdEntity.Bird>
    const leopards: seq<SnowLeopardEntity.SnowLeopard>
    var platforms: seq<PlatformImage>
    var platformBodies: seq<BodyRecord>
    var goalPlatform: Option<nat>
    var goalDoorSensor: Option<Sensor>
    var startTime: int
    var scaleX: real
    var isMobile: bool
    var isInitialized: bool
    var currentIcePlatform: Option<nat>
    /** `collidingPlatforms`, the set the contact handlers share. */
    var collidingPlatforms: set<nat>
    /** Result scenes launched, in order (`scene.launch("GameOverScene", …)`). */
    var launches: seq<GameResult>
    var paused: bool
    /** Calls of `scene.restart()`. */
    var restarts: nat
    var timerText: string
    var heightText: string

    function Map(): MapBuild
      reads this`platforms, this`platformBodies, this`goalPlatform, this`goalDoorSensor
    {
      MapBuild(platforms, platformBodies, goalPlatform, goalDoorSensor)
    }

    /** The map stays well built at the current scale, and the screen mode
        matches the scale. */
    predicate MapValid()
      reads this`platforms, this`platformBodies, this`goalPlatform, this`goalDoorSensor, this`scaleX, this`isMobile
    {
      scaleX > 0.0 && isMobile == IsMobileWidth(scaleX * Config.GAME_WIDTH) &&
      WellBuilt(Map(), descriptors, scaleX)
    }

    /** The owned entities are distinct objects, every bird is valid and
        every leopard chases this scene's goat. */
    predicate OwnedValid()
      reads birds, leopards
    {
      (forall i, j :: 0 <= i < j < |birds| ==> birds[i] != birds[j]) &&
      (forall i, j :: 0 <= i < j < |leopards| ==> leopards[i] != leopards[j]) &&
      (forall k :: 0 <= k < |birds| ==> birds[k].Valid()) &&
      (forall k :: 0 <= k < |leopards| ==> leopards[k].playerRef == player)
    }

    predicate Valid()
      reads this, birds, leopards
    {
      MapValid() && OwnedValid() && player.maxPower == Config.MAX_JUMP_POWER
    }

    /** What the contact rules read from the scene. */
    function Ctx(): Contacts.Context
      reads this`platforms, this`goalDoorSensor, birds
    {
      Contacts.Context(IceFlags(platforms), Directions(birds), goalDoorSensor.Some?)
    }

    /** What the contact rules write. */
    function View(): Contacts.State
      reads this`collidingPlatforms, this`currentIcePlatform, this`launches, this`paused, player, leopards
    {
      Contacts.State(collidingPlatforms, currentIcePlatform, PlayerViewOf(player), LeopardViews(leopards), launches, paused)
    }

    /** What the contact handlers leave alone. */
    function Rest(): Settled
      reads this, player
    {
      Settled(Map(), startTime, scaleX, isMobile, isInitialized, restarts, timerText, heightText,
              player.x, player.y, player.jumpPower, player.isCharging, player.direction, player.events)
    }

    /** The result a game over launches at clock reading `now`. */
    function LossAt(now: int): GameResult
      requires now >= startTime
      reads this`startTime, player
    {
      GameResult(false, ElapsedSeconds(now, startTime), player.GetHeight())
    }

    /** `create()`: `layout` holds the descriptor lists for the canvas's
        screen mode, `now` the clock, `keyboard` whether a keyboard exists and
        `coins[k]` the k-th bird's random draw. */
    constructor (layout: Layout, width: real, now: int, keyboard: bool, coins: seq<bool>)
      requires width > 0.0 && |layout.platforms| > 0 && |coins| >= |layout.obstacles|
      ensures Valid()
      ensures descriptors == layout.platforms && startTime == now && isInitialized
      ensures scaleX == ScaleFor(width) && isMobile == IsMobileWidth(width)
      ensures Map() == BuildMap(layout.platforms, scaleX)
      ensures var start := StartPosition(layout.platforms, Config.START_PLATFORM_INDEX, scaleX);
        player.x == start.x && player.y == start.y
      ensures player.State() == PlayerEntity.Initial(keyboard) && player.hooks == [] && player.events == []
      ensures |birds| == |BirdData(layout.obstacles, scaleX)|
      ensures forall k :: 0 <= k < |birds| ==> BirdFrom(birds[k], BirdData(layout.obstacles, scaleX)[k], scaleX, coins[k])
      ensures |leopards| == |layout.leopards|
      ensures forall k :: 0 <= k < |leopards| ==> LeopardFrom(leopards[k], ScaledSpawn(layout.leopards[k], scaleX), scaleX)
      ensures collidingPlatforms == {} && currentIcePlatform == None
      ensures launches == [] && !paused && restarts == 0
      ensures timerText == "TIME: 00:00" && heightText == "HEIGHT: 0m"
    {
      var scale := ScaleFor(width);
      ScaleAndMode(width);
      var m, bs, ls, p := Populate(layout, scale, keyboard, coins);
      descriptors := layout.platforms;
      player, birds, leopards := p, bs, ls;
      platforms, platformBodies := m.platforms, m.records;
      goalPlatform, goalDoorSensor := m.goalPlatform, m.sensor;
      startTime := now;
      scaleX := scale;
      isMobile := width <= Config.MOBILE_BREAKPOINT;
      currentIcePlatform := None;
      collidingPlatforms := {};
      launches, paused, restarts := [], false, 0;
      timerText, heightText := "TIME: 00:00", "HEIGHT: 0m";
      isInitialized := true;
    }
  
    /** `handleGameOver()`: pause and launch the result screen with a loss. */
    method HandleGameOver(now: int)
      requires now >= startTime
      modifies this`launches, this`paused
      ensures launches == old(launches) + [old(LossAt(now))] && paused
    {
      var elapsed := ElapsedSeconds(now, startTime);
      paused := true;
      launches := launches + [GameResult(false, elapsed, player.GetHeight())];
    }

    // -------------------------------------------------------------------
    // Contact begin

    /** The goat's fields that no contact reaction writes. */
    twostate predicate PlayerFixed()
      reads player
    {
      unchanged(player`x, player`y, player`jumpPower, player`isCharging, player`direction) &&
      unchanged(player`events)
    }

    /** A bird hit: the knockback along the bird's heading. */
    method BirdBegin(b: nat)
      requires Valid() && b < |birds|
      modifies player
      ensures PlayerViewOf(player) == old(PlayerViewOf(player)).(
        vx := Ctx().birdDirections[b] as real * Config.BIRD_KNOCKBACK,
        vy := -Config.BIRD_KNOCKBACK * 0.5, isGrounded := false)
      ensures PlayerFixed()
    {
      var dir := birds[b].GetKnockbackDirection();
      player.ApplyKnockback(dir as real, Config.BIRD_KNOCKBACK);
    }

    /** The goal door's sensor: the goat is on the goal platform. */
    method GoalBegin()
      modifies player
      ensures PlayerViewOf(player) == old(PlayerViewOf(player)).(isOnGoalPlatform := true)
      ensures PlayerFixed()
    {
      player.isOnGoalPlatform := true;
    }

    /** A wall hit: the horizontal velocity reversed and damped. */
    method WallBegin()
      modifies player
      ensures PlayerViewOf(player) == old(PlayerViewOf(player)).(vx := -old(player.vx) * 0.8)
      ensures PlayerFixed()
    {
      player.SetVelocityX(-player.vx * 0.8);
    }

    /** A platform touch: it joins the colliding set, an ice platform becomes
        the current one and switches the friction, and the goat is grounded
        off the goal. */
    method PlatformBegin(i: nat)
      requires i < |platforms|
      modifies this`collidingPlatforms, this`currentIcePlatform, player
      ensures collidingPlatforms == old(collidingPlatforms) + {i}
      ensures currentIcePlatform == if platforms[i].isIce then Some(i) else old(currentIcePlatform)
      ensures PlayerViewOf(player) ==
        var p := old(PlayerViewOf(player));
        Contacts.SetGrounded(if platforms[i].isIce then Contacts.AddHook(p, PlayerEntity.SetFrictionValue) else p, true, false)
      ensures PlayerFixed()
    {
      collidingPlatforms := collidingPlatforms + {i};
      if platforms[i].isIce {
        currentIcePlatform := Some(i);
        player.CallHook(PlayerEntity.SetFrictionValue);
      }
      player.SetGrounded(true, false);
    }

    /** The goat's side of one `collisionstart` pair; the result says whether
        the handler returned early. */
    method BeginPlayerSide(other: Contacts.Body, now: int) returns (returned: bool)
      requires Valid() && now >= startTime
      modifies this`collidingPlatforms, this`currentIcePlatform, this`launches, this`paused, player
      ensures (View(), returned) == Contacts.BeginPlayer(old(View()), old(Ctx()), old(LossAt(now)), other)
      ensures PlayerFixed()
    {
      returned := true;
      if other == Contacts.GoalSensor && goalDoorSensor.Some? {
        GoalBegin();
      } else if other.BirdBody? {
        if other.bird < |birds| {
          BirdBegin(other.bird);
        }
      } else if other.LeopardBody? {
        if other.leopard < |leopards| && leopards[other.leopard].IsAlive() {
          HandleGameOver(now);
        }
      } else if other == Contacts.Wall {
        WallBegin();
      } else {
        returned := false;
        if other.PlatformBody? && other.platform < |platforms| {
          PlatformBegin(other.platform);
        }
      }
    }

    /** The k-th leopard's reaction to a begin pair: a wall hit is recorded,
        a falling leopard that touches a platform lands. */
    method LeopardBegin(k: nat, pair: Contacts.Pair)
      requires k < |leopards|
      modifies leopards[k]
      ensures LeopardViewOf(leopards[k]) == Contacts.BeginLeopard(old(LeopardViewOf(leopards[k])), k, Ctx(), pair)
      ensures OnlyPhaseChanged(leopards[k])
    {
      var l := leopards[k];
      if Contacts.Involves(pair, Contacts.LeopardBody(k)) {
        var other := Contacts.Other(pair, Contacts.LeopardBody(k));
        if other == Contacts.Wall {
          l.OnHitWall();
        } else if other.PlatformBody? && other.platform < |platforms| && l.phase == SnowLeopardEntity.Falling {
          l.OnLandedOnPlatform();
        }
      }
    }

    /** The loop of the leopard pass over one `collisionstart` pair. */
    method LeopardLoop(pair: Contacts.Pair, ghost ctx: Contacts.Context)
      requires ctx == Ctx()
      requires forall i, j :: 0 <= i < j < |leopards| ==> leopards[i] != leopards[j]
      modifies leopards
      ensures LeopardViews(leopards) == Contacts.BeginLeopards(old(LeopardViews(leopards)), ctx, pair, |leopards|)
      ensures forall k :: 0 <= k < |leopards| ==> OnlyPhaseChanged(leopards[k])
    {
      ghost var views := LeopardViews(leopards);
      var k := 0;
      while k < |leopards|
        invariant 0 <= k <= |leopards|
        invariant Ctx() == ctx
        invariant forall j :: 0 <= j < |leopards| ==>
          (OnlyPhaseChanged(leopards[j]) &&
           LeopardViewOf(leopards[j]) == if j < k then Contacts.BeginLeopard(views[j], j, ctx, pair) else views[j])
      {
        LeopardBegin(k, pair);
        k := k + 1;
      }
      ghost var after := LeopardViews(leopards);
      assert after == Contacts.BeginLeopards(views, ctx, pair, |leopards|) by {
        assert forall j :: 0 <= j < |leopards| ==> after[j] == LeopardViewOf(leopards[j]);
      }
    }

    /** The leopard pass of one `collisionstart` pair. */
    method BeginLeopardSide(pair: Contacts.Pair)
      requires Valid()
      modifies leopards
      ensures Valid()
      ensures View() == old(View()).(leopards := Contacts.BeginLeopards(old(View()).leopards, old(Ctx()), pair, |leopards|))
      ensures Rest() == old(Rest()) && Ctx() == old(Ctx())
      ensures forall k :: 0 <= k < |leopards| ==> OnlyPhaseChanged(leopards[k])
    {
      LeopardLoop(pair, Ctx());
    }

    /** The goat's side of a begin pair when the pair involves the goat. */
    method BeginPlayerPart(pair: Contacts.Pair, now: int) returns (returned: bool)
      requires Valid() && now >= startTime
      modifies this`collidingPlatforms, this`currentIcePlatform, this`launches, this`paused, player
      ensures Valid()
      ensures (View(), returned) ==
        if Contacts.Involves(pair, Contacts.PlayerBody)
        then Contacts.BeginPlayer(old(View()), old(Ctx()), old(LossAt(now)), Contacts.Other(pair, Contacts.PlayerBody))
        else (old(View()), false)
      ensures Rest() == old(Rest()) && Ctx() == old(Ctx())
    {
      returned := false;
      if Contacts.Involves(pair, Contacts.PlayerBody) {
        returned := BeginPlayerSide(Contacts.Other(pair, Contacts.PlayerBody), now);
      }
    }

    /** One `collisionstart` pair. */
    method BeginOne(pair: Contacts.Pair, now: int)
      requires Valid() && now >= startTime
      modifies this`collidingPlatforms, this`currentIcePlatform, this`launches, this`paused, player, leopards
      ensures Valid()
      ensures View() == Contacts.BeginPair(old(View()), old(Ctx()), old(LossAt(now)), pair)
      ensures Rest() == old(Rest()) && Ctx() == old(Ctx())
      ensures forall k :: 0 <= k < |leopards| ==> OnlyPhaseChanged(leopards[k])
    {
      var returned := BeginPlayerPart(pair, now);
      assert forall k :: 0 <= k < |leopards| ==> OnlyPhaseChanged(leopards[k]);
      if !returned {
        BeginLeopardSide(pair);
      }
    }

    /** The `collisionstart` handler over an event's pairs. */
    method HandleCollisionStart(pairs: seq<Contacts.Pair>, now: int)
      requires Valid() && now >= startTime
      modifies this`collidingPlatforms, this`currentIcePlatform, this`launches, this`paused, player, leopards
      ensures Valid()
      ensures View() == Contacts.Begin(old(View()), old(Ctx()), old(LossAt(now)), pairs)
      ensures Rest() == old(Rest()) && Ctx() == old(Ctx())
      ensures forall k :: 0 <= k < |leopards| ==> OnlyPhaseChanged(leopards[k])
    {
      ghost var v0, c0, l0, r0 := View(), Ctx(), LossAt(now), Rest();
      var i := 0;
      while i < |pairs|
        invariant 0 <= i <= |pairs|
        invariant Valid()
        invariant View() == Contacts.Begin(v0, c0, l0, pairs[..i])
        invariant Rest() == r0 && Ctx() == c0 && LossAt(now) == l0
        invariant forall k :: 0 <= k < |leopards| ==> OnlyPhaseChanged(leopards[k])
      {
        assert pairs[..i + 1][..i] == pairs[..i];
        BeginOne(pairs[i], now);
        i := i + 1;
      }
      assert pairs[..|pairs|] == pairs;
    }

    // -------------------------------------------------------------------
    // Contact persist

    /** One `collisionactive` pair; `onIce` is the event's `isOnIce` flag. */
    method PersistOne(pair: Contacts.Pair, onIce: bool) returns (onIce': bool)
      modifies this`collidingPlatforms, this`currentIcePlatform, player
      ensures (View(), onIce') == Contacts.PersistPair(old(View()), onIce, Ctx(), pair)
      ensures PlayerFixed()
    {
      onIce' := onIce;
      if !Contacts.Involves(pair, Contacts.PlayerBody) {
        return;
      }
      var other := Contacts.Other(pair, Contacts.PlayerBody);
      if other == Contacts.GoalSensor && goalDoorSensor.Some? {
        player.isOnGoalPlatform := true;
        return;
      }
      if other.PlatformBody? && other.platform < |platforms| {
        var i := other.platform;
        collidingPlatforms := collidingPlatforms + {i};
        if platforms[i].isIce {
          onIce' := true;
          currentIcePlatform := Some(i);
        }
      }
    }

    /** The pair loop of `collisionactive`; the result is `isOnIce`. */
    method PersistPairs(pairs: seq<Contacts.Pair>) returns (onIce: bool)
      modifies this`collidingPlatforms, this`currentIcePlatform, player
      ensures (View(), onIce) == Contacts.PersistLoop(old(View()), Ctx(), pairs)
      ensures PlayerFixed()
    {
      ghost var v0 := View();
      onIce := false;
      var i := 0;
      while i < |pairs|
        invariant 0 <= i <= |pairs|
        invariant (View(), onIce) == Contacts.PersistLoop(v0, Ctx(), pairs[..i])
        invariant PlayerFixed()
      {
        assert pairs[..i + 1][..i] == pairs[..i];
        onIce := PersistOne(pairs[i], onIce);
        i := i + 1;
      }
      assert pairs[..|pairs|] == pairs;
    }

    /** The `collisionactive` handler over an event's pairs. */
    method HandleCollisionActive(pairs: seq<Contacts.Pair>)
      requires Valid()
      modifies this`collidingPlatforms, this`currentIcePlatform, player
      ensures Valid()
      ensures View() == Contacts.Persist(old(View()), old(Ctx()), pairs)
      ensures Rest() == old(Rest()) && Ctx() == old(Ctx())
    {
      PersistEvent(pairs);
    }

    /** The first closing step of `collisionactive`: off the ice when no
        pair of the event was ice. */
    method LeaveIceUnlessOn(onIce: bool)
      modifies this`currentIcePlatform, player
      ensures View() == if !onIce && old(View()).icePlatform.Some?
        then old(View()).(icePlatform := None, player := Contacts.AddHook(old(View()).player, PlayerEntity.ResetFriction))
        else old(View())
      ensures PlayerFixed()
    {
      if !onIce && currentIcePlatform.Some? {
        currentIcePlatform := None;
        player.CallHook(PlayerEntity.ResetFriction);
      }
    }

    /** The second closing step of `collisionactive`: grounded again while
        any platform is touched. */
    method RegroundIfTouching()
      modifies player
      ensures View() == if |old(View()).colliding| > 0
        then old(View()).(player := Contacts.SetGrounded(old(View()).player, true, false))
        else old(View())
      ensures PlayerFixed()
    {
      if |collidingPlatforms| > 0 {
        player.SetGrounded(true, false);
      }
    }

    /** The loop of `collisionactive` and its two closing steps. */
    method PersistEvent(pairs: seq<Contacts.Pair>)
      modifies this`collidingPlatforms, this`currentIcePlatform, player
      ensures View() == Contacts.Persist(old(View()), Ctx(), pairs)
      ensures PlayerFixed()
    {
      var onIce := PersistPairs(pairs);
      LeaveIceUnlessOn(onIce);
      RegroundIfTouching();
    }

    // -------------------------------------------------------------------
    // Contact end

    /** One `collisionend` pair. */
    method EndOne(pair: Contacts.Pair)
      modifies this`collidingPlatforms, this`currentIcePlatform, player
      ensures View() == Contacts.EndPair(old(View()), Ctx(), pair)
      ensures PlayerFixed()
    {
      if Contacts.Involves(pair, Contacts.PlayerBody) {
        var other := Contacts.Other(pair, Contacts.PlayerBody);
        if other == Contacts.GoalSensor && goalDoorSensor.Some? {
          GoalEnd();
        } else if other.PlatformBody? && other.platform < |platforms| {
          PlatformEnd(other.platform);
        }
      }
    }

    /** Leaving the goal door's sensor: off the goal platform. */
    method GoalEnd()
      modifies player
      ensures PlayerViewOf(player) == old(PlayerViewOf(player)).(isOnGoalPlatform := false)
      ensures PlayerFixed()
    {
      player.isOnGoalPlatform := false;
    }

    /** Leaving platform `i`: it leaves the colliding set, and leaving an ice
        platform clears the current one and restores the friction. */
    method PlatformEnd(i: nat)
      requires i < |platforms|
      modifies this`collidingPlatforms, this`currentIcePlatform, player
      ensures var st1 := old(View()).(colliding := old(View()).colliding - {i});
        View() == if platforms[i].isIce
          then st1.(icePlatform := None, player := Contacts.AddHook(st1.player, PlayerEntity.ResetFriction))
          else st1
      ensures PlayerFixed()
    {
      collidingPlatforms := collidingPlatforms - {i};
      if platforms[i].isIce {
        currentIcePlatform := None;
        player.CallHook(PlayerEntity.ResetFriction);
      }
    }

    /** The pair loop of `collisionend`. */
    method EndPairs(pairs: seq<Contacts.Pair>)
      modifies this`collidingPlatforms, this`currentIcePlatform, player
      ensures View() == Contacts.EndLoop(old(View()), Ctx(), pairs)
      ensures PlayerFixed()
    {
      ghost var v0 := View();
      var i := 0;
      while i < |pairs|
        invariant 0 <= i <= |pairs|
        invariant View() == Contacts.EndLoop(v0, Ctx(), pairs[..i])
        invariant PlayerFixed()
      {
        assert pairs[..i + 1][..i] == pairs[..i];
        EndOne(pairs[i]);
        i := i + 1;
      }
      assert pairs[..|pairs|] == pairs;
    }

    /** The `collisionend` handler over an event's pairs. */
    method HandleCollisionEnd(pairs: seq<Contacts.Pair>)
      requires Valid()
      modifies this`collidingPlatforms, this`currentIcePlatform, player
      ensures Valid()
      ensures View() == Contacts.End(old(View()), old(Ctx()), pairs)
      ensures Rest() == old(Rest()) && Ctx() == old(Ctx())
    {
      EndEvent(pairs);
    }

    /** The loop of `collisionend` and its closing step. */
    method EndEvent(pairs: seq<Contacts.Pair>)
      modifies this`collidingPlatforms, this`currentIcePlatform, player
      ensures View() == Contacts.End(old(View()), Ctx(), pairs)
      ensures PlayerFixed()
    {
      EndPairs(pairs);
      if |collidingPlatforms| == 0 {
        LeaveGround();
      }
    }

    /** The closing step of `collisionend` once nothing is touched: airborne,
        and off the ice if it was on one. */
    method LeaveGround()
      modifies this`currentIcePlatform, player
      ensures var st2 := old(View()).(player := Contacts.SetGrounded(old(View()).player, false, false));
        View() == if st2.icePlatform.Some?
          then st2.(icePlatform := None, player := Contacts.AddHook(st2.player, PlayerEntity.ResetFriction))
          else st2
      ensures PlayerFixed()
    {
      ghost var st1 := View();
      player.SetGrounded(false, false);
      ghost var st2 := View();
      assert st2 == st1.(player := Contacts.SetGrounded(st1.player, false, false));
      if currentIcePlatform.Some? {
        currentIcePlatform := None;
        player.CallHook(PlayerEntity.ResetFriction);
      }
    }

    // -------------------------------------------------------------------
    // Resize

    /** The descriptor loop of `handleResize`: every recorded body back at
        its scale-1 x and width times the new scale. */
    method RescalePlatforms()
      modifies this`platforms
      ensures platforms == Rescale(old(platforms), platformBodies, scaleX)
    {
      ghost var p0 := platforms;
      var j := 0;
      while j < |platformBodies|
        invariant 0 <= j <= |platformBodies|
        invariant platforms == Rescale(p0, platformBodies[..j], scaleX)
      {
        assert platformBodies[..j + 1][..j] == platformBodies[..j];
        var r := platformBodies[j];
        ghost var target := ApplyRecord(platforms, r, scaleX);
        assert Rescale(p0, platformBodies[..j + 1], scaleX) == target;
        if r.body < |platforms| {
          var moved := platforms[r.body].(x := r.originalX * scaleX, displayWidth := r.originalWidth * scaleX);
          assert target[r.body] == moved;
          platforms := platforms[r.body := moved];
        }
        assert platforms == target;
        j := j + 1;
      }
      assert platformBodies[..|platformBodies|] == platformBodies;
    }

    method ResizeBirds(s1: real, s2: real)
      requires s1 != 0.0 && OwnedValid()
      modifies birds
      ensures OwnedValid()
      ensures forall k :: 0 <= k < |birds| ==> BirdResized(birds[k], s1, s2)
    {
      var k := 0;
      while k < |birds|
        invariant 0 <= k <= |birds|
        invariant forall j :: 0 <= j < k ==> birds[j].Valid() && BirdResized(birds[j], s1, s2)
        invariant forall j :: k <= j < |birds| ==> unchanged(birds[j])
      {
        ResizeBird(birds[k], s1, s2);
        k := k + 1;
      }
    }

    method ResizeLeopards(s1: real, s2: real)
      requires s1 != 0.0 && OwnedValid()
      modifies leopards
      ensures OwnedValid()
      ensures forall k :: 0 <= k < |leopards| ==> LeopardResized(leopards[k], s1, s2)
    {
      var k := 0;
      while k < |leopards|
        invariant 0 <= k <= |leopards|
        invariant forall j :: 0 <= j < k ==> LeopardResized(leopards[j], s1, s2)
        invariant forall j :: k <= j < |leopards| ==> unchanged(leopards[j])
      {
        ResizeLeopard(leopards[k], s1, s2);
        k := k + 1;
      }
    }

    /** `handleResize` when the screen mode stays: the new scale, the
        platforms rescaled from their records, and the goat, the birds and
        the leopards moved by the scale ratio. */
    twostate predicate Resized(width: real)
      requires old(scaleX) != 0.0
      reads this, player, birds, leopards
    {
      scaleX == ScaleFor(width) &&
      platforms == Rescale(old(platforms), platformBodies, scaleX) &&
      player.x == ResizeX(old(player.x), old(scaleX), scaleX) && player.y == old(player.y) &&
      player.State() == old(player.State()) && player.events == old(player.events) &&
      player.hooks == old(player.hooks) + [PlayerEntity.SetScreenScaleX(scaleX)] &&
      (forall k :: 0 <= k < |birds| ==> BirdResized(birds[k], old(scaleX), scaleX)) &&
      (forall k :: 0 <= k < |leopards| ==> LeopardResized(leopards[k], old(scaleX), scaleX))
    }

    /** `handleResize` when the call changes nothing in the map or in the
        entities. */
    twostate predicate Kept()
      reads this, player, birds, leopards
    {
      scaleX == old(scaleX) && platforms == old(platforms) && unchanged(player) &&
      (forall k :: 0 <= k < |birds| ==> unchanged(birds[k])) &&
      (forall k :: 0 <= k < |leopards| ==> unchanged(leopards[k]))
    }

    method ResizeAll(width: real)
      requires Valid() && width > 0.0 && IsMobileWidth(width) == isMobile
      modifies this`platforms, this`scaleX, player, birds, leopards
      ensures Valid() && Resized(width)
    {
      var oldScale := scaleX;
      RescaleMap(width);
      ResizePlayer(oldScale, scaleX);
      ResizeBirds(oldScale, scaleX);
      ResizeLeopards(oldScale, scaleX);
    }

    /** The map part of `handleResize`: the new scale and every recorded
        platform rescaled, the map still well built. */
    method RescaleMap(width: real)
      requires MapValid() && width > 0.0 && IsMobileWidth(width) == isMobile
      modifies this`platforms, this`scaleX
      ensures MapValid()
      ensures scaleX == ScaleFor(width) && platforms == Rescale(old(platforms), platformBodies, scaleX)
    {
      var newScaleX := width / Config.GAME_WIDTH;
      WellBuiltRecords(Map(), descriptors, scaleX);
      RescaleKeepsWellBuilt(Map(), descriptors, scaleX, newScaleX);
      ScaleAndMode(width);
      scaleX := newScaleX;
      RescalePlatforms();
    }

    /** The goat's part of `handleResize`: moved by the scale ratio and told
        the new scale. */
    method ResizePlayer(s1: real, s2: real)
      requires s1 != 0.0
      modifies player
      ensures player.x == ResizeX(old(player.x), s1, s2) && player.y == old(player.y)
      ensures player.State() == old(player.State()) && player.events == old(player.events)
      ensures player.hooks == old(player.hooks) + [PlayerEntity.SetScreenScaleX(s2)]
    {
      player.SetPosition(player.x * (s2 / s1), player.y);
      player.CallHook(PlayerEntity.SetScreenScaleX(s2));
    }

    /** `handleResize(width)`: ignored before `create()` finished, a restart
        when the width crosses the mobile breakpoint, else a rescale. */
    method HandleResize(width: real)
      requires Valid() && width > 0.0
      modifies this`platforms, this`scaleX, this`restarts, player, birds, leopards
      ensures Valid()
      ensures !old(isInitialized) ==> restarts == old(restarts) && Kept()
      ensures old(isInitialized) && IsMobileWidth(width) != isMobile ==> restarts == old(restarts) + 1 && Kept()
      ensures old(isInitialized) && IsMobileWidth(width) == isMobile ==> restarts == old(restarts) && Resized(width)
    {
      if !isInitialized {
        return;
      }
      var newIsMobile := width <= Config.MOBILE_BREAKPOINT;
      if newIsMobile != isMobile {
        restarts := restarts + 1;
        return;
      }
      ResizeAll(width);
    }

    // -------------------------------------------------------------------
    // Frame update

    method UpdateBirds()
      requires OwnedValid()
      modifies birds
      ensures OwnedValid()
      ensures forall k :: 0 <= k < |birds| ==> Patrolled(birds[k])
    {
      var k := 0;
      while k < |birds|
        invariant 0 <= k <= |birds|
        invariant forall j :: 0 <= j < k ==> birds[j].Valid() && Patrolled(birds[j])
        invariant forall j :: k <= j < |birds| ==> unchanged(birds[j])
      {
        birds[k].Update();
        k := k + 1;
      }
    }

    /** Every leopard's `update()`, each one chasing this scene's goat. */
    method UpdateLeopards()
      requires OwnedValid()
      modifies leopards
      ensures OwnedValid()
      ensures forall k :: 0 <= k < |leopards| ==>
        leopards[k].State() == SnowLeopardEntity.FrameUpdate(
          old(leopards[k].State()), old(leopards[k].Parameters()), Some(Point(player.x, player.y)))
      ensures forall k :: 0 <= k < |leopards| ==>
        leopards[k].Parameters() == old(leopards[k].Parameters()) && leopards[k].hitWallCalls == old(leopards[k].hitWallCalls) &&
        leopards[k].screenScaleX == old(leopards[k].screenScaleX)
    {
      var k := 0;
      while k < |leopards|
        invariant 0 <= k <= |leopards|
        invariant forall j :: 0 <= j < |leopards| ==>
          (leopards[j].playerRef == player &&
           if j < k then FrameUpdated(leopards[j], Some(Point(player.x, player.y))) else unchanged(leopards[j]))
      {
        leopards[k].Update();
        k := k + 1;
      }
    }

    /** `checkSnowLeopardFallAndRespawn()` with the camera's scroll and height. */
    method CheckSnowLeopardFallAndRespawn(cameraY: real, cameraHeight: real, disableRespawn: bool)
      requires OwnedValid()
      modifies leopards
      ensures OwnedValid()
      ensures forall k :: 0 <= k < |leopards| ==>
        leopards[k].State() == FallAndRespawn(old(leopards[k].State()), old(leopards[k].Parameters()), cameraY, cameraHeight, disableRespawn)
      ensures forall k :: 0 <= k < |leopards| ==>
        leopards[k].Parameters() == old(leopards[k].Parameters()) && leopards[k].hitWallCalls == old(leopards[k].hitWallCalls) &&
        leopards[k].screenScaleX == old(leopards[k].screenScaleX)
    {
      var k := 0;
      while k < |leopards|
        invariant 0 <= k <= |leopards|
        invariant forall j :: 0 <= j < |leopards| ==>
          (leopards[j].playerRef == player &&
           if j < k then FallChecked(leopards[j], cameraY, cameraHeight, disableRespawn) else unchanged(leopards[j]))
      {
        FallCheck(leopards[k], player, cameraY, cameraHeight, disableRespawn);
        k := k + 1;
      }
    }

    /** The leopards' part of a frame: their `update()`, then the fall and
        respawn check. */
    method LeopardsFrame(cameraY: real, cameraHeight: real, disableRespawn: bool)
      requires OwnedValid()
      modifies leopards
      ensures OwnedValid()
      ensures forall k :: 0 <= k < |leopards| ==>
        leopards[k].State() == FallAndRespawn(
          SnowLeopardEntity.FrameUpdate(old(leopards[k].State()), old(leopards[k].Parameters()), Some(Point(player.x, player.y))),
          old(leopards[k].Parameters()), cameraY, cameraHeight, disableRespawn)
    {
      UpdateLeopards();
      CheckSnowLeopardFallAndRespawn(cameraY, cameraHeight, disableRespawn);
    }

    /** `updateHUD()` at clock reading `now`. */
    method UpdateHud(now: int)
      requires now >= startTime
      modifies this`timerText, this`heightText
      ensures timerText == TimerText(ElapsedSeconds(now, startTime))
      ensures heightText == HeightText(player.GetHeight())
    {
      var elapsed := ElapsedSeconds(now, startTime);
      var height := player.GetHeight();
      timerText := TimerText(elapsed);
      heightText := HeightText(height);
    }

    /** `handleClear(clearTime)`: pause and launch the result screen with a win. */
    method HandleClear(clearTime: nat)
      modifies this`launches, this`paused
      ensures launches == old(launches) + [GameResult(true, clearTime, player.GetHeight())] && paused
    {
      paused := true;
      launches := launches + [GameResult(true, clearTime, player.GetHeight())];
    }

    /** The entity part of one frame: the goat's charge, the birds' patrol,
        the leopards' chase and their fall check. */
    method EntitiesFrame(delta: real, cameraY: real, cameraHeight: real)
      requires Valid()
      modifies player, birds, leopards
      ensures Valid()
      ensures player.State() == PlayerEntity.Step(old(player.State()), PlayerEntity.Tick(delta))
      ensures player.events == old(player.events) + PlayerEntity.Emitted(old(player.State()), PlayerEntity.Tick(delta))
      ensures forall k :: 0 <= k < |birds| ==> Patrolled(birds[k])
      ensures forall k :: 0 <= k < |leopards| ==>
        leopards[k].State() == FallAndRespawn(
          SnowLeopardEntity.FrameUpdate(old(leopards[k].State()), old(leopards[k].Parameters()), Some(Point(player.x, player.y))),
          old(leopards[k].Parameters()), cameraY, cameraHeight, Config.DISABLE_LEOPARD_RESPAWN)
    {
      player.Update(delta);
      UpdateBirds();
      LeopardsFrame(cameraY, cameraHeight, Config.DISABLE_LEOPARD_RESPAWN);
    }

    /** `update(time, delta)`: one frame of a running scene at clock reading
        `now`, with the camera's scroll and height. */
    method Update(delta: real, now: int, cameraY: real, cameraHeight: real)
      requires Valid() && !paused && now >= startTime
      modifies player, birds, leopards, this`timerText, this`heightText, this`launches, this`paused
      ensures Valid()
      ensures player.State() == PlayerEntity.Step(old(player.State()), PlayerEntity.Tick(delta))
      ensures player.events == old(player.events) + PlayerEntity.Emitted(old(player.State()), PlayerEntity.Tick(delta))
      ensures forall k :: 0 <= k < |birds| ==> Patrolled(birds[k])
      ensures forall k :: 0 <= k < |leopards| ==>
        leopards[k].State() == FallAndRespawn(
          SnowLeopardEntity.FrameUpdate(old(leopards[k].State()), old(leopards[k].Parameters()), Some(Point(player.x, player.y))),
          old(leopards[k].Parameters()), cameraY, cameraHeight, Config.DISABLE_LEOPARD_RESPAWN)
      ensures timerText == TimerText(ElapsedSeconds(now, startTime)) && heightText == HeightText(player.GetHeight())
      ensures player.isOnGoalPlatform ==>
        launches == old(launches) + [GameResult(true, ElapsedSeconds(now, startTime), player.GetHeight())] && paused
      ensures !player.isOnGoalPlatform ==> launches == old(launches) && !paused
    {
      EntitiesFrame(delta, cameraY, cameraHeight);
      UpdateHud(now);
      if player.isOnGoalPlatform {
        HandleClear(ElapsedSeconds(now, startTime));
      }
    }
  }
}
