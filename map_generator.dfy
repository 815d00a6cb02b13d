/** The authored level: the platform list (bottom to top, start to goal),
    the bird list, and the two compatibility helpers. */
module MapGenerator {
  import opened Util
  import opened GameTypes
  import PlatformFactory
  import Config

  /** A descriptor as the level authors it: texture, width and shape set,
      friction, angle and height left undefined. */
  function Entry(x: real, y: real, texture: Texture, width: real, shape: PlatformShape, isGoal: bool): PlatformData
  {
    PlatformData(x, y, texture, Some(width), None, None, None, Some(shape), isGoal)
  }

  /** The authored descriptor at index `i` of the platform list. */
  function Descriptor(i: int): PlatformData
    requires 0 <= i < 35
  {
    if i == 0 then Entry(480.0, 5492.0, PlatformTexture, 960.0, Flat, false) else
    if i == 1 then Entry(300.0, 5350.0, PlatformTexture, 120.0, Flat, false) else
    if i == 2 then Entry(780.0, 5200.0, PlatformTexture, 130.0, Flat, false) else
    if i == 3 then Entry(100.0, 5050.0, PlatformTexture, 160.0, SlopeUp, false) else
    if i == 4 then Entry(880.0, 4850.0, PlatformTexture, 120.0, LReverse, false) else
    if i == 5 then Entry(500.0, 4750.0, PlatformTexture, 150.0, Flat, false) else
    if i == 6 then Entry(220.0, 4450.0, PlatformTexture, 140.0, Flat, false) else
    if i == 7 then Entry(620.0, 4300.0, PlatformTexture, 150.0, SlopeUp, false) else
    if i == 8 then Entry(880.0, 4200.0, PlatformTexture, 110.0, T, false) else
    if i == 9 then Entry(280.0, 4150.0, PlatformTexture, 140.0, Flat, false) else
    if i == 10 then Entry(700.0, 4000.0, PlatformTexture, 130.0, Flat, false) else
    if i == 11 then Entry(80.0, 3850.0, PlatformTexture, 130.0, Flat, false) else
    if i == 12 then Entry(600.0, 3700.0, PlatformIce, 140.0, Flat, false) else
    if i == 13 then Entry(340.0, 3550.0, PlatformTexture, 130.0, SlopeDown, false) else
    if i == 14 then Entry(880.0, 3300.0, PlatformIce, 100.0, Flat, false) else
    if i == 15 then Entry(200.0, 3250.0, PlatformTexture, 130.0, Flat, false) else
    if i == 16 then Entry(620.0, 3100.0, PlatformIce, 120.0, Flat, false) else
    if i == 17 then Entry(280.0, 2950.0, PlatformTexture, 120.0, Flat, false) else
    if i == 18 then Entry(700.0, 2800.0, PlatformTexture, 120.0, SlopeUp, false) else
    if i == 19 then Entry(80.0, 2700.0, PlatformTexture, 100.0, T, false) else
    if i == 20 then Entry(880.0, 2400.0, PlatformTexture, 100.0, LReverse, false) else
    if i == 21 then Entry(280.0, 2350.0, PlatformTexture, 110.0, Flat, false) else
    if i == 22 then Entry(700.0, 2200.0, PlatformTexture, 100.0, SlopeDown, false) else
    if i == 23 then Entry(580.0, 1900.0, PlatformTexture, 100.0, Flat, false) else
    if i == 24 then Entry(80.0, 1800.0, PlatformTexture, 90.0, SlopeUp, false) else
    if i == 25 then Entry(220.0, 1750.0, PlatformIce, 100.0, Flat, false) else
    if i == 26 then Entry(700.0, 1600.0, PlatformTexture, 90.0, Flat, false) else
    if i == 27 then Entry(280.0, 1450.0, PlatformTexture, 100.0, SlopeUp, false) else
    if i == 28 then Entry(700.0, 1300.0, PlatformTexture, 85.0, Flat, false) else
    if i == 29 then Entry(880.0, 1200.0, PlatformTexture, 90.0, SlopeDown, false) else
    if i == 30 then Entry(160.0, 1150.0, PlatformIce, 90.0, Flat, false) else
    if i == 31 then Entry(520.0, 1000.0, PlatformTexture, 100.0, Flat, false) else
    if i == 32 then Entry(280.0, 850.0, PlatformTexture, 110.0, Flat, false) else
    if i == 33 then Entry(700.0, 700.0, PlatformTexture, 120.0, SlopeUp, false) else
    Entry(480.0, 600.0, PlatformTexture, 100.0, Flat, true)
  }

  /** The first `n` descriptors, in authored order. */
  function DescriptorsUpTo(n: nat): (s: seq<PlatformData>)
    requires n <= 35
    ensures |s| == n
  {
    if n == 0 then [] else DescriptorsUpTo(n - 1) + [Descriptor(n - 1)]
  }

  lemma {:induction false} DescriptorsUpToIndex(n: nat, k: nat)
    requires k < n <= 35
    ensures DescriptorsUpTo(n)[k] == Descriptor(k)
  {
    var p := DescriptorsUpTo(n - 1);
    assert DescriptorsUpTo(n) == p + [Descriptor(n - 1)];
    if k < n - 1 {
      DescriptorsUpToIndex(n - 1, k);
    }
  }

  /** `mapData`: 35 platforms from the full-width start floor (index 0) to the
      goal (index 34). */
  const MapData: seq<PlatformData> := DescriptorsUpTo(35)

  function Bird(x: real, y: real, speed: real, range: real): ObstacleData
  {
    ObstacleData(BirdObstacle, x, y, Horizontal, speed, Some(range))
  }

  const ObstacleList: seq<ObstacleData> := [
      Bird(400.0, 3500.0, 10.0, 180.0),
      Bird(600.0, 2900.0, 5.0, 200.0),
      Bird(300.0, 2300.0, 8.0, 160.0),
      Bird(500.0, 1700.0, 10.0, 220.0),
      Bird(400.0, 1100.0, 12.0, 200.0)
    ]

  /** `getTextureForPlatform`. */
  function TextureForPlatform(p: PlatformData): (t: Texture)
    ensures p.isGoal ==> t == PlatformGoal
    ensures !p.isGoal ==> t == p.texture
  {
    if p.isGoal then PlatformGoal else p.texture
  }

  /** `getPlatformWidth`: `width || 64`. */
  function PlatformWidth(p: PlatformData): real
  {
    OrDefault(p.width, 64.0)
  }

  /** The helper agrees with the width the builder uses, and with the texture
      the builder gives a flat platform. */
  lemma HelpersAgreeWithFactory(p: PlatformData)
    ensures PlatformWidth(p) == PlatformFactory.WidthOf(p)
    ensures PlatformFactory.ShapeOf(p) == Flat ==>
      PlatformFactory.BodiesOf(p)[0].texture == TextureForPlatform(p)
  {
  }

  /** Facts about one authored platform, checked entry by entry. */
  predicate EntryWellFormed(i: nat)
    requires i < |MapData|
  {
    var p := MapData[i];
    0.0 <= p.x <= Config.GAME_WIDTH &&
    0.0 < p.y < Config.MAP_HEIGHT &&
    p.width.Some? && p.width.value > 0.0 &&
    p.friction.None? && p.angle.None? &&
    (p.isGoal <==> i == |MapData| - 1) &&
    (PlatformFactory.IsSlope(PlatformFactory.ShapeOf(p)) ==> p.width.value > 50.0) &&
    (i + 1 < |MapData| ==> MapData[i + 1].y < p.y)
  }

  /** Every authored entry satisfies `EntryWellFormed`; the entries are
      checked in three groups. */
  lemma EntryFacts(i: nat)
    requires i < |MapData|
    ensures EntryWellFormed(i)
  {
    if i < 12 {
      EntryFactsLow(i);
    } else if i < 24 {
      EntryFactsMiddle(i);
    } else {
      EntryFactsHigh(i);
    }
  }

  lemma {:induction false} EntryFactsLow(i: nat)
    requires 0 <= i < 12
    ensures EntryWellFormed(i)
  {
    DescriptorsUpToIndex(35, i);
    if i + 1 < 35 {
      DescriptorsUpToIndex(35, i + 1);
    }
    if i == 0 { }
    else if i == 1 { }
    else if i == 2 { }
    else if i == 3 { }
    else if i == 4 { }
    else if i == 5 { }
    else if i == 6 { }
    else if i == 7 { }
    else if i == 8 { }
    else if i == 9 { }
    else if i == 10 { }
    else if i == 11 { }
  }

  lemma {:induction false} EntryFactsMiddle(i: nat)
    requires 12 <= i < 24
    ensures EntryWellFormed(i)
  {
    DescriptorsUpToIndex(35, i);
    if i + 1 < 35 {
      DescriptorsUpToIndex(35, i + 1);
    }
    if i == 12 { }
    else if i == 13 { }
    else if i == 14 { }
    else if i == 15 { }
    else if i == 16 { }
    else if i == 17 { }
    else if i == 18 { }
    else if i == 19 { }
    else if i == 20 { }
    else if i == 21 { }
    else if i == 22 { }
    else if i == 23 { }
  }

  lemma {:induction false} EntryFactsHigh(i: nat)
    requires 24 <= i < 35
    ensures EntryWellFormed(i)
  {
    DescriptorsUpToIndex(35, i);
    if i + 1 < 35 {
      DescriptorsUpToIndex(35, i + 1);
    }
    if i == 24 { }
    else if i == 25 { }
    else if i == 26 { }
    else if i == 27 { }
    else if i == 28 { }
    else if i == 29 { }
    else if i == 30 { }
    else if i == 31 { }
    else if i == 32 { }
    else if i == 33 { }
    else if i == 34 { }
  }

  /** Platform heights strictly decrease along the list: it runs from the
      start at the bottom to the goal at the top. */
  lemma {:induction false} MapRisesStrictly(i: nat, j: nat)
    requires i < j < |MapData|
    ensures MapData[j].y < MapData[i].y
    decreases j - i
  {
    EntryFacts(i);
    if i + 1 < j {
      MapRisesStrictly(i + 1, j);
    }
  }

  /** Exactly one platform is a goal, the last one (index 34). */
  lemma OnlyLastIsGoal(i: nat)
    requires i < |MapData|
    ensures MapData[i].isGoal <==> i == 34
  {
    EntryFacts(i);
  }

  /** Every x lies in the reference width, every slope is wider than the two
      25-wide pads (so the ramp has positive width), and the builder is never
      given an explicit friction or angle. */
  lemma PlatformsFitReferenceWidth(i: nat)
    requires i < |MapData|
    ensures 0.0 <= MapData[i].x <= Config.GAME_WIDTH
    ensures PlatformFactory.IsSlope(PlatformFactory.ShapeOf(MapData[i])) ==>
      PlatformFactory.BodiesOf(MapData[i])[1].width > 0.0
  {
    EntryFacts(i);
  }

  /** Platform 0 is 960 wide and centred at 480: it spans the whole width. */
  lemma StartPlatformSpansWidth()
    ensures var p := MapData[0]; var w := PlatformFactory.WidthOf(p);
      p.x - w / 2.0 == 0.0 && p.x + w / 2.0 == Config.GAME_WIDTH
  {
    DescriptorsUpToIndex(35, 0);
  }

  /** Every obstacle is a horizontally patrolling bird with an explicit
      positive speed and range. */
  lemma ObstaclesAreBirds(i: nat)
    requires i < |ObstacleList|
    ensures var o := ObstacleList[i];
      o.kind == BirdObstacle && o.pattern == Horizontal &&
      o.speed > 0.0 && o.range.Some? && o.range.value > 0.0
  {
    if i == 0 { } else if i == 1 { } else if i == 2 { } else if i == 3 { } else { }
  }
}
