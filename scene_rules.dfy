/** The game scene's bookkeeping rules that do not depend on the engine:
    building the platform list from the descriptors, the start position, the
    goal door, resize rescaling, the leopard fall/respawn rule and the HUD. */
module SceneRules {
  import opened Util
  import opened GameTypes
  import Config
  import PlatformFactory
  import SnowLeopardEntity
  import TimeFormat

  /** A platform body as the scene keeps it: position and display size, the
      index of the descriptor it came from, and the two data flags. */
  datatype PlatformImage = PlatformImage(
    x: real, y: real, displayWidth: real, displayHeight: real,
    descriptor: nat, isIce: bool, isGoal: bool)

  /** An entry of `platformBodies`: the body (its index in the platform list)
      with its x and width at scale 1. */
  datatype BodyRecord = BodyRecord(body: nat, originalX: real, originalWidth: real)

  /** The goal door's sensor rectangle. */
  datatype Sensor = Sensor(x: real, y: real, width: real, height: real)

  datatype MapBuild = MapBuild(
    platforms: seq<PlatformImage>,
    records: seq<BodyRecord>,
    goalPlatform: Option<nat>,
    sensor: Option<Sensor>)

  /** The descriptor lists the screen selectors return. */
  datatype Layout = Layout(
    platforms: seq<PlatformData>,
    obstacles: seq<ObstacleData>,
    leopards: seq<SnowLeopardEntity.SpawnData>)

  const SENSOR_WIDTH: real := 30.0
  const SENSOR_HEIGHT: real := 20.0
  const START_LIFT: real := 50.0

  /** `width / GAME_WIDTH`. */
  function ScaleFor(width: real): real
  {
    width / Config.GAME_WIDTH
  }

  /** `width <= MOBILE_BREAKPOINT`. */
  predicate IsMobileWidth(width: real)
  {
    width <= Config.MOBILE_BREAKPOINT
  }

  /** The descriptor with x and (a truthy) width scaled; a missing or zero
      width stays missing, so the factory's unscaled 64 applies. */
  function Scaled(p: PlatformData, scale: real): PlatformData
  {
    p.(x := p.x * scale,
       width := if p.width.Some? && p.width.value != 0.0 then Some(p.width.value * scale) else None)
  }

  /** `createGoalDoor(x, platformY)`. */
  function DoorSensor(x: real, platformY: real): Sensor
  {
    Sensor(x, platformY - SENSOR_HEIGHT / 2.0 - 15.0, SENSOR_WIDTH, SENSOR_HEIGHT)
  }

  function ImagesOf(bodies: seq<PlatformFactory.Rect>, descriptor: nat, ice: bool, goal: bool): (r: seq<PlatformImage>)
    ensures |r| == |bodies|
    ensures forall j :: 0 <= j < |r| ==>
      r[j] == PlatformImage(bodies[j].x, bodies[j].y, bodies[j].width, bodies[j].height, descriptor, ice, goal)
  {
    if |bodies| == 0 then []
    else
      var b := bodies[|bodies| - 1];
      ImagesOf(bodies[..|bodies| - 1], descriptor, ice, goal) + [PlatformImage(b.x, b.y, b.width, b.height, descriptor, ice, goal)]
  }

  function RecordsOf(bodies: seq<PlatformFactory.Rect>, base: nat, scale: real): (r: seq<BodyRecord>)
    requires scale != 0.0
    ensures |r| == |bodies|
    ensures forall j :: 0 <= j < |r| ==>
      r[j] == BodyRecord(base + j, bodies[j].x / scale, bodies[j].width / scale)
  {
    if |bodies| == 0 then []
    else
      var b := bodies[|bodies| - 1];
      RecordsOf(bodies[..|bodies| - 1], base, scale) + [BodyRecord(base + |bodies| - 1, b.x / scale, b.width / scale)]
  }

  /** One iteration of `createMap`'s loop over the descriptors. */
  function AddPlatform(m: MapBuild, p: PlatformData, index: nat, scale: real): MapBuild
    requires scale != 0.0
  {
    var sp := Scaled(p, scale);
    AddBodies(m, PlatformFactory.BodiesOf(sp), index, p, sp, scale)
  }

  /** Appends the bodies made for descriptor `p` (scaled as `sp`). */
  function AddBodies(m: MapBuild, bodies: seq<PlatformFactory.Rect>, index: nat, p: PlatformData, sp: PlatformData, scale: real): MapBuild
    requires scale != 0.0
  {
    var base := |m.platforms|;
    var goalHere := p.isGoal && |bodies| > 0;
    MapBuild(
      m.platforms + ImagesOf(bodies, index, p.texture == PlatformIce, p.isGoal),
      m.records + RecordsOf(bodies, base, scale),
      if goalHere then Some(base) else m.goalPlatform,
      if goalHere then Some(DoorSensor(sp.x, sp.y)) else m.sensor)
  }

  /** `createMap` over a descriptor list. */
  function BuildMap(descs: seq<PlatformData>, scale: real): MapBuild
    requires scale != 0.0
    decreases |descs|
  {
    if |descs| == 0 then MapBuild([], [], None, None)
    else AddPlatform(BuildMap(descs[..|descs| - 1], scale), descs[|descs| - 1], |descs| - 1, scale)
  }

  /** The number of bodies a descriptor list produces. */
  function TotalBodies(descs: seq<PlatformData>): nat
  {
    if |descs| == 0 then 0
    else TotalBodies(descs[..|descs| - 1]) + PlatformFactory.BodyCount(PlatformFactory.ShapeOf(descs[|descs| - 1]))
  }

  /** What the scene relies on in a built map: the records run parallel to
      the platforms and remember the scale-1 geometry, every body carries its
      descriptor's ice and goal flags, and the goal body is a goal body. */
  predicate WellBuilt(m: MapBuild, descs: seq<PlatformData>, scale: real)
  {
    |m.records| == |m.platforms| &&
    (forall k :: 0 <= k < |m.platforms| ==> BodyWellBuilt(m, descs, scale, k)) &&
    (m.goalPlatform.Some? ==> m.goalPlatform.value < |m.platforms| && m.platforms[m.goalPlatform.value].isGoal) &&
    (m.goalPlatform.Some? <==> m.sensor.Some?)
  }

  /** Body `k` of a built map: its record points at it with the scale-1
      geometry, and it carries its descriptor's flags. */
  predicate BodyWellBuilt(m: MapBuild, descs: seq<PlatformData>, scale: real, k: nat)
    requires |m.records| == |m.platforms| && k < |m.platforms|
  {
    m.records[k].body == k &&
    m.records[k].originalX * scale == m.platforms[k].x &&
    m.records[k].originalWidth * scale == m.platforms[k].displayWidth &&
    m.platforms[k].descriptor < |descs| &&
    (m.platforms[k].isIce <==> descs[m.platforms[k].descriptor].texture == PlatformIce) &&
    (m.platforms[k].isGoal <==> descs[m.platforms[k].descriptor].isGoal)
  }

  lemma DivMul(a: real, s: real)
    requires s != 0.0
    ensures (a / s) * s == a
  {
  }

  lemma BodiesCount(p: PlatformData, scale: real)
    ensures |PlatformFactory.BodiesOf(Scaled(p, scale))| == PlatformFactory.BodyCount(PlatformFactory.ShapeOf(p))
  {
    PlatformFactory.BodyCountByShape(Scaled(p, scale));
  }

  /** Appending one descriptor's bodies to a well-built map keeps it well built. */
  lemma AddBodiesWellBuilt(m0: MapBuild, prefix: seq<PlatformData>, bodies: seq<PlatformFactory.Rect>, p: PlatformData, sp: PlatformData, scale: real)
    requires scale != 0.0 && WellBuilt(m0, prefix, scale)
    ensures WellBuilt(AddBodies(m0, bodies, |prefix|, p, sp, scale), prefix + [p], scale)
    ensures |AddBodies(m0, bodies, |prefix|, p, sp, scale).platforms| == |m0.platforms| + |bodies|
  {
    var descs := prefix + [p];
    var m := AddBodies(m0, bodies, |prefix|, p, sp, scale);
    var imgs := ImagesOf(bodies, |prefix|, p.texture == PlatformIce, p.isGoal);
    var recs := RecordsOf(bodies, |m0.platforms|, scale);
    forall k | 0 <= k < |m.platforms|
      ensures BodyWellBuilt(m, descs, scale, k)
    {
      if k < |m0.platforms| {
        assert BodyWellBuilt(m0, prefix, scale, k);
        assert m.platforms[k] == m0.platforms[k] && m.records[k] == m0.records[k];
        assert descs[m0.platforms[k].descriptor] == prefix[m0.platforms[k].descriptor];
      } else {
        var j := k - |m0.platforms|;
        assert m.platforms[k] == imgs[j];
        assert m.records[k] == recs[j];
        DivMul(bodies[j].x, scale);
        DivMul(bodies[j].width, scale);
        assert descs[|prefix|] == p;
      }
    }
    if m.goalPlatform.Some? && m.goalPlatform != m0.goalPlatform {
      assert m.platforms[m.goalPlatform.value] == imgs[0];
    } else if m.goalPlatform.Some? {
      assert m.platforms[m.goalPlatform.value] == m0.platforms[m.goalPlatform.value];
    }
  }

  /** The built map is well formed and holds one body per descriptor part. */
  lemma {:induction false} BuildMapWellBuilt(descs: seq<PlatformData>, scale: real)
    requires scale != 0.0
    ensures WellBuilt(BuildMap(descs, scale), descs, scale)
    ensures |BuildMap(descs, scale).platforms| == TotalBodies(descs)
    decreases |descs|
  {
    if |descs| > 0 {
      var prefix := descs[..|descs| - 1];
      var p := descs[|descs| - 1];
      BuildMapWellBuilt(prefix, scale);
      BodiesCount(p, scale);
      var sp := Scaled(p, scale);
      AddBodiesWellBuilt(BuildMap(prefix, scale), prefix, PlatformFactory.BodiesOf(sp), p, sp, scale);
      assert prefix + [p] == descs;
    }
  }

  /** The door sensor is 30 by 20, centred 25 above the goal platform's centre. */
  lemma DoorPlacement(x: real, platformY: real)
    ensures DoorSensor(x, platformY) == Sensor(x, platformY - 25.0, 30.0, 20.0)
  {
  }

  /** `getPlayerStartPosition`: 50 above the debug platform when the debug
      index is a valid index, else above platform 0; x is scaled. */
  function StartPosition(descs: seq<PlatformData>, debugIndex: Option<int>, scale: real): (r: Point)
    requires |descs| > 0
  {
    if debugIndex.Some? && 0 <= debugIndex.value < |descs|
    then Point(descs[debugIndex.value].x * scale, descs[debugIndex.value].y - START_LIFT)
    else Point(descs[0].x * scale, descs[0].y - START_LIFT)
  }

  lemma StartPositionRule(descs: seq<PlatformData>, debugIndex: Option<int>, scale: real)
    requires |descs| > 0
    ensures var i := if debugIndex.Some? && 0 <= debugIndex.value < |descs| then debugIndex.value else 0;
      StartPosition(descs, debugIndex, scale) == Point(descs[i].x * scale, descs[i].y - 50.0)
    ensures debugIndex.None? ==> StartPosition(descs, debugIndex, scale) == Point(descs[0].x * scale, descs[0].y - 50.0)
  {
  }

  /** Scale and mode from the canvas width: 960 is scale 1 and still mobile. */
  lemma ScaleAndMode(width: real)
    ensures ScaleFor(width) * 960.0 == width
    ensures IsMobileWidth(width) <==> ScaleFor(width) <= 1.0
    ensures IsMobileWidth(960.0) && !IsMobileWidth(961.0)
  {
  }

  // ---------------------------------------------------------------------
  // Resize

  /** One iteration of the resize loop over `platformBodies`. */
  function ApplyRecord(ps: seq<PlatformImage>, r: BodyRecord, scale: real): (out: seq<PlatformImage>)
    ensures |out| == |ps|
  {
    if r.body < |ps|
    then ps[r.body := ps[r.body].(x := r.originalX * scale, displayWidth := r.originalWidth * scale)]
    else ps
  }

  function Rescale(ps: seq<PlatformImage>, rs: seq<BodyRecord>, scale: real): (out: seq<PlatformImage>)
    ensures |out| == |ps|
    decreases |rs|
  {
    if |rs| == 0 then ps else ApplyRecord(Rescale(ps, rs[..|rs| - 1], scale), rs[|rs| - 1], scale)
  }

  /** With records parallel to the platforms, a rescale puts every platform at
      its scale-1 x and width times the new scale, and touches nothing else. */
  lemma {:induction false} RescalePointwise(ps: seq<PlatformImage>, rs: seq<BodyRecord>, scale: real, n: nat)
    requires n <= |rs| <= |ps|
    requires forall k :: 0 <= k < |rs| ==> rs[k].body == k
    ensures var out := Rescale(ps, rs[..n], scale);
      (forall k :: 0 <= k < n ==>
        out[k] == ps[k].(x := rs[k].originalX * scale, displayWidth := rs[k].originalWidth * scale)) &&
      (forall k :: n <= k < |ps| ==> out[k] == ps[k])
    decreases n
  {
    if n > 0 {
      assert rs[..n][..n - 1] == rs[..n - 1];
      RescalePointwise(ps, rs, scale, n - 1);
    }
  }

  /** Rescaling is absolute: the last scale alone decides, so repeated resizes
      never drift. */
  lemma RescaleAbsolute(ps: seq<PlatformImage>, rs: seq<BodyRecord>, s1: real, s2: real)
    requires |rs| == |ps|
    requires forall k :: 0 <= k < |rs| ==> rs[k].body == k
    ensures Rescale(Rescale(ps, rs, s1), rs, s2) == Rescale(ps, rs, s2)
  {
    assert rs[..|rs|] == rs;
    RescalePointwise(ps, rs, s1, |rs|);
    RescalePointwise(Rescale(ps, rs, s1), rs, s2, |rs|);
    RescalePointwise(ps, rs, s2, |rs|);
  }

  /** Resizing a freshly built map to the scale it was built at changes nothing. */
  lemma RescaleAtBuildScale(descs: seq<PlatformData>, scale: real)
    requires scale != 0.0
    ensures var m := BuildMap(descs, scale); Rescale(m.platforms, m.records, scale) == m.platforms
  {
    BuildMapWellBuilt(descs, scale);
    RescaleBuilt(BuildMap(descs, scale), descs, scale);
  }

  lemma RescaleBuilt(m: MapBuild, descs: seq<PlatformData>, scale: real)
    requires WellBuilt(m, descs, scale)
    ensures Rescale(m.platforms, m.records, scale) == m.platforms
  {
    forall k | 0 <= k < |m.records|
      ensures m.records[k].body == k && m.records[k].originalX * scale == m.platforms[k].x
      ensures m.records[k].originalWidth * scale == m.platforms[k].displayWidth
    {
      assert BodyWellBuilt(m, descs, scale, k);
    }
    RescaleFixed(m.platforms, m.records, scale);
  }

  lemma RescaleFixed(ps: seq<PlatformImage>, rs: seq<BodyRecord>, scale: real)
    requires |rs| == |ps|
    requires forall k :: 0 <= k < |rs| ==>
      rs[k].body == k && rs[k].originalX * scale == ps[k].x && rs[k].originalWidth * scale == ps[k].displayWidth
    ensures Rescale(ps, rs, scale) == ps
  {
    assert rs[..|rs|] == rs;
    RescalePointwise(ps, rs, scale, |rs|);
    var out := Rescale(ps, rs, scale);
    forall k | 0 <= k < |ps| ensures out[k] == ps[k] {
      assert out[k] == ps[k].(x := rs[k].originalX * scale, displayWidth := rs[k].originalWidth * scale);
    }
  }

  /** A well-built map's records name their own positions. */
  lemma WellBuiltRecords(m: MapBuild, descs: seq<PlatformData>, scale: real)
    requires WellBuilt(m, descs, scale)
    ensures |m.records| == |m.platforms|
    ensures forall k :: 0 <= k < |m.records| ==> m.records[k].body == k
  {
    forall k | 0 <= k < |m.records| ensures m.records[k].body == k {
      assert BodyWellBuilt(m, descs, scale, k);
    }
  }

  /** A resize keeps the map well built at the new scale: the records still
      hold every body's scale-1 geometry, and flags and the goal stay put. */
  lemma RescaleKeepsWellBuilt(m: MapBuild, descs: seq<PlatformData>, s1: real, s2: real)
    requires WellBuilt(m, descs, s1)
    ensures WellBuilt(m.(platforms := Rescale(m.platforms, m.records, s2)), descs, s2)
  {
    WellBuiltRecords(m, descs, s1);
    assert m.records[..|m.records|] == m.records;
    RescalePointwise(m.platforms, m.records, s2, |m.records|);
    var m2 := m.(platforms := Rescale(m.platforms, m.records, s2));
    forall k | 0 <= k < |m2.platforms| ensures BodyWellBuilt(m2, descs, s2, k) {
      assert BodyWellBuilt(m, descs, s1, k);
    }
  }

  /** A moving object's x under a resize: multiplied by new / old scale, so
      resizing there and back restores it. */
  function ResizeX(x: real, oldScale: real, newScale: real): real
    requires oldScale != 0.0
  {
    x * (newScale / oldScale)
  }

  lemma ResizeRoundTrip(x: real, s1: real, s2: real)
    requires s1 != 0.0 && s2 != 0.0
    ensures ResizeX(ResizeX(x, s1, s2), s2, s1) == x
  {
    assert (s2 / s1) * (s1 / s2) == 1.0;
  }

  // ---------------------------------------------------------------------
  // Leopards leaving the screen

  /** One leopard's step of `checkSnowLeopardFallAndRespawn`: an alive leopard
      more than 50 below the camera's bottom dies; unless respawning is
      disabled, a dead one respawns once the camera's top is more than 200
      below its spawn point. */
  function FallAndRespawn(s: SnowLeopardEntity.Snapshot, p: SnowLeopardEntity.Params,
                          cameraY: real, cameraHeight: real, disableRespawn: bool): SnowLeopardEntity.Snapshot
  {
    var s1 := if s.phase != SnowLeopardEntity.Dead && s.y > cameraY + cameraHeight + 50.0
      then SnowLeopardEntity.FallOff(s) else s;
    if disableRespawn then s1
    else if s1.phase == SnowLeopardEntity.Dead && cameraY > p.spawnY + 200.0
    then SnowLeopardEntity.Reborn(s1, p)
    else s1
  }

  /** Whether that step respawned the leopard (the scene then re-sets its goat
      reference). */
  predicate Respawned(s: SnowLeopardEntity.Snapshot, p: SnowLeopardEntity.Params,
                      cameraY: real, cameraHeight: real, disableRespawn: bool)
  {
    var s1 := if s.phase != SnowLeopardEntity.Dead && s.y > cameraY + cameraHeight + 50.0
      then SnowLeopardEntity.FallOff(s) else s;
    !disableRespawn && s1.phase == SnowLeopardEntity.Dead && cameraY > p.spawnY + 200.0
  }

  lemma FallRule(s: SnowLeopardEntity.Snapshot, p: SnowLeopardEntity.Params, cameraY: real, cameraHeight: real, disable: bool)
    ensures var r := FallAndRespawn(s, p, cameraY, cameraHeight, disable);
      (disable ==> (r.phase == SnowLeopardEntity.Dead <==>
                    s.phase == SnowLeopardEntity.Dead || s.y > cameraY + cameraHeight + 50.0)) &&
      (disable && s.phase == SnowLeopardEntity.Dead ==> r == s) &&
      (s.phase != SnowLeopardEntity.Dead && s.y <= cameraY + cameraHeight + 50.0 ==> r == s) &&
      (Respawned(s, p, cameraY, cameraHeight, disable) ==> r == SnowLeopardEntity.Reborn(s, p)) &&
      (!disable && s.phase == SnowLeopardEntity.Dead && cameraY <= p.spawnY + 200.0 ==> r == s)
  {
  }

  /** As configured, respawning is off, so a dead leopard stays dead. */
  lemma ConfiguredNoRespawn(s: SnowLeopardEntity.Snapshot, p: SnowLeopardEntity.Params, cameraY: real, cameraHeight: real)
    requires s.phase == SnowLeopardEntity.Dead
    ensures FallAndRespawn(s, p, cameraY, cameraHeight, Config.DISABLE_LEOPARD_RESPAWN) == s
    ensures !Respawned(s, p, cameraY, cameraHeight, Config.DISABLE_LEOPARD_RESPAWN)
  {
  }

  // ---------------------------------------------------------------------
  // HUD and timing

  /** Whole seconds since the start, from millisecond clock readings. */
  function ElapsedSeconds(now: int, start: int): nat
    requires now >= start
  {
    (now - start) / 1000
  }

  function TimerText(elapsed: nat): string
  {
    "TIME: " + TimeFormat.FormatClock(elapsed)
  }

  function HeightText(h: int): string
  {
    "HEIGHT: " + TimeFormat.IntToString(h) + "m"
  }

  /** The HUD's initial texts are what the update would show at time 0 and
      height 0. */
  lemma InitialHud()
    ensures TimerText(0) == "TIME: 00:00"
    ensures HeightText(0) == "HEIGHT: 0m"
  {
    assert TimeFormat.NatToString(0) == "0";
  }

  /** The timer text carries the elapsed seconds: after the "TIME: " prefix it
      reads back as minutes and seconds that recompose to the elapsed time. */
  lemma TimerTextReadsBack(t: nat)
    ensures var s := TimerText(t); var c := s[6..]; var k := |c| - 3;
      s[..6] == "TIME: " && |c| >= 5 && c[k] == ':' &&
      TimeFormat.IsDigits(c[..k]) && TimeFormat.IsDigits(c[k + 1..]) &&
      60 * TimeFormat.ParseDecimal(c[..k]) + TimeFormat.ParseDecimal(c[k + 1..]) == t
  {
    TimeFormat.FormatClockRoundTrip(t);
    assert TimerText(t)[6..] == TimeFormat.FormatClock(t);
  }

  /** The height text shows the height in decimal digits, framed by
      "HEIGHT: " and "m". */
  lemma HeightTextReadsBack(h: nat)
    ensures var s := HeightText(h);
      |s| >= 10 && s[..8] == "HEIGHT: " && s[|s| - 1] == 'm' &&
      TimeFormat.IsDigits(s[8..|s| - 1]) && TimeFormat.ParseDecimal(s[8..|s| - 1]) == h
  {
    var s := HeightText(h);
    assert s[8..|s| - 1] == TimeFormat.NatToString(h);
    TimeFormat.ParseNatToString(h);
  }
}
