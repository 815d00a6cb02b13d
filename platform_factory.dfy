/** The platform builder: from an authored descriptor to the static Matter.js
    rectangles that make up the platform (flat, L, mirrored L, T, and the two
    slopes). Body construction in the source is a chain of setter calls on
    engine objects; here each body is the rectangle those calls configure. */
module PlatformFactory {
  import opened Util
  import opened GameTypes
  import Config

  const PLATFORM_THICKNESS: real := 16.0
  const LIP_HEIGHT: real := 20.0
  const LIP_WIDTH: real := 16.0
  const SLOPE_FLAT_LENGTH: real := 25.0
  const SLOPE_DEGREES: real := 12.0
  const DEFAULT_WIDTH: real := 64.0

  /** `Math.sin(12 * Math.PI / 180)`, the double the source computes; nothing
      below depends on more than 0 < SIN_SLOPE < 1. */
  const SIN_SLOPE: real := 0.20791169081775934

  /** One static rectangle: centre, size, angle in degrees, friction, texture,
      and the collision filter it carries. */
  datatype Rect = Rect(
    x: real, y: real, width: real, height: real,
    angle: real, friction: real, texture: Texture,
    isStatic: bool, category: bv32, mask: bv32)

  /** What `createPlatformBody` returns: an image for a flat platform, a
      container whose `bodies` data holds the parts otherwise. */
  datatype GameObject =
    | Image(body: Rect)
    | Container(x: real, y: real, bodies: Option<seq<Rect>>)
    | OtherObject

  function ShapeOf(p: PlatformData): PlatformShape
  {
    if p.shape.Some? then p.shape.value else Flat
  }

  /** `platform.width || 64`. */
  function WidthOf(p: PlatformData): (w: real)
    ensures p.width.Some? && p.width.value != 0.0 ==> w == p.width.value
    ensures p.width.None? || p.width.value == 0.0 ==> w == DEFAULT_WIDTH
  {
    OrDefault(p.width, DEFAULT_WIDTH)
  }

  predicate IsIce(p: PlatformData)
  {
    p.texture == PlatformIce
  }

  /** `platform.friction ?? (ice ? 0.0005 : 0.1)`: an explicit 0 is kept. */
  function FrictionOf(p: PlatformData): (f: real)
    ensures p.friction.Some? ==> f == p.friction.value
    ensures p.friction.None? && IsIce(p) ==> f == Config.PLATFORM_FRICTION_ICE
    ensures p.friction.None? && !IsIce(p) ==> f == Config.PLATFORM_FRICTION_NORMAL
  {
    Coalesce(p.friction, if IsIce(p) then Config.PLATFORM_FRICTION_ICE else Config.PLATFORM_FRICTION_NORMAL)
  }

  /** A static body with the platform collision filter applied. */
  function StaticPart(x: real, y: real, w: real, h: real, angle: real, friction: real, texture: Texture): Rect
  {
    Rect(x, y, w, h, angle, friction, texture, true, Config.CATEGORY_PLATFORM, Config.MASK_PLATFORM)
  }

  function FlatShape(p: PlatformData, width: real, friction: real): Rect
  {
    var texture := if p.isGoal then PlatformGoal else p.texture;
    StaticPart(p.x, p.y, width, PLATFORM_THICKNESS, OrDefault(p.angle, 0.0), friction, texture)
  }

  function Floor(p: PlatformData, width: real, friction: real): Rect
  {
    StaticPart(p.x, p.y, width, PLATFORM_THICKNESS, 0.0, friction, p.texture)
  }

  /** A lip standing on the floor: `offset` is its centre's x offset. */
  function Lip(p: PlatformData, offset: real, friction: real): Rect
  {
    StaticPart(p.x + offset, p.y - (LIP_HEIGHT / 2.0 + PLATFORM_THICKNESS / 2.0),
               LIP_WIDTH, LIP_HEIGHT, 0.0, friction, p.texture)
  }

  function LipOffset(width: real): real
  {
    width / 2.0 - LIP_WIDTH / 2.0
  }

  /** Floor plus one lip: on the left for L, on the right for the mirrored L. */
  function LShape(p: PlatformData, width: real, friction: real, reversed: bool): seq<Rect>
  {
    var lipX := if reversed then LipOffset(width) else -LipOffset(width);
    [Floor(p, width, friction), Lip(p, lipX, friction)]
  }

  /** Floor plus a lip at each edge. */
  function TShape(p: PlatformData, width: real, friction: real): seq<Rect>
  {
    [Floor(p, width, friction), Lip(p, -LipOffset(width), friction), Lip(p, LipOffset(width), friction)]
  }

  /** Left pad, rotated centre ramp (half friction), right pad. */
  function SlopeShape(p: PlatformData, width: real, friction: real, goingUp: bool): seq<Rect>
  {
    var slopeWidth := width - SLOPE_FLAT_LENGTH * 2.0;
    var slopeAngle := if goingUp then -SLOPE_DEGREES else SLOPE_DEGREES;
    var halfSlopeHeight := (slopeWidth / 2.0) * SIN_SLOPE;
    var leftFlatX := -(width / 2.0) + SLOPE_FLAT_LENGTH / 2.0;
    var leftFlatY := if goingUp then halfSlopeHeight else -halfSlopeHeight;
    var rightFlatX := width / 2.0 - SLOPE_FLAT_LENGTH / 2.0;
    var rightFlatY := if goingUp then -halfSlopeHeight else halfSlopeHeight;
    [ StaticPart(p.x + leftFlatX, p.y + leftFlatY, SLOPE_FLAT_LENGTH, PLATFORM_THICKNESS, 0.0, friction, p.texture),
      StaticPart(p.x, p.y, slopeWidth, PLATFORM_THICKNESS, slopeAngle, friction * 0.5, p.texture),
      StaticPart(p.x + rightFlatX, p.y + rightFlatY, SLOPE_FLAT_LENGTH, PLATFORM_THICKNESS, 0.0, friction, p.texture) ]
  }

  /** `createPlatformBody`: dispatch on the shape, flat by default. */
  function CreatePlatformBody(p: PlatformData): (obj: GameObject)
    ensures ShapeOf(p) == Flat <==> obj.Image?
    ensures ShapeOf(p) != Flat ==> obj.Container? && obj.x == p.x && obj.y == p.y && obj.bodies.Some?
  {
    var width := WidthOf(p);
    var friction := FrictionOf(p);
    match ShapeOf(p)
    case L => Container(p.x, p.y, Some(LShape(p, width, friction, false)))
    case LReverse => Container(p.x, p.y, Some(LShape(p, width, friction, true)))
    case T => Container(p.x, p.y, Some(TShape(p, width, friction)))
    case SlopeUp => Container(p.x, p.y, Some(SlopeShape(p, width, friction, true)))
    case SlopeDown => Container(p.x, p.y, Some(SlopeShape(p, width, friction, false)))
    case Flat => Image(FlatShape(p, width, friction))
  }

  /** `extractBodiesFromPlatform`. */
  function ExtractBodies(obj: GameObject): (bodies: seq<Rect>)
    ensures obj.Image? ==> bodies == [obj.body]
    ensures obj.Container? && obj.bodies.Some? ==> bodies == obj.bodies.value
    ensures obj.OtherObject? || (obj.Container? && obj.bodies.None?) ==> bodies == []
  {
    match obj
    case Image(r) => [r]
    case Container(_, _, Some(bs)) => bs
    case _ => []
  }

  /** The bodies the builder produces for a descriptor. */
  function BodiesOf(p: PlatformData): seq<Rect>
  {
    ExtractBodies(CreatePlatformBody(p))
  }

  function BodyCount(s: PlatformShape): nat
  {
    match s
    case Flat => 1
    case L => 2
    case LReverse => 2
    case T => 3
    case SlopeUp => 3
    case SlopeDown => 3
  }

  /** Flat gives one body, both L shapes two, T and both slopes three. */
  lemma BodyCountByShape(p: PlatformData)
    ensures |BodiesOf(p)| == BodyCount(ShapeOf(p))
  {
  }

  predicate IsSlope(s: PlatformShape)
  {
    s == SlopeUp || s == SlopeDown
  }

  /** Every body is static with the platform collision filter; every body has
      the chosen friction except a slope's centre piece, which has half. */
  lemma BodiesStaticWithChosenFriction(p: PlatformData, i: nat)
    requires i < |BodiesOf(p)|
    ensures var b := BodiesOf(p)[i];
      b.isStatic && b.category == Config.CATEGORY_PLATFORM && b.mask == Config.MASK_PLATFORM &&
      b.friction == (if IsSlope(ShapeOf(p)) && i == 1 then FrictionOf(p) * 0.5 else FrictionOf(p))
  {
  }

  /** Only a flat platform uses the goal texture and applies `angle`; every
      part of the other shapes keeps the authored texture and angle 0, except
      the slope's ramp. */
  lemma TextureAndAngleRule(p: PlatformData, i: nat)
    requires i < |BodiesOf(p)|
    ensures var b := BodiesOf(p)[i];
      (ShapeOf(p) == Flat ==> b.texture == (if p.isGoal then PlatformGoal else p.texture)
                              && b.angle == OrDefault(p.angle, 0.0)) &&
      (ShapeOf(p) != Flat ==> b.texture == p.texture &&
                              (b.angle == 0.0 || (IsSlope(ShapeOf(p)) && i == 1)))
  {
  }

  /** A lip is 16 x 20 and stands on the floor: its bottom is the floor's top
      and its outer edge is flush with the floor's edge (left for L, right for
      the mirrored L). */
  lemma LipGeometry(p: PlatformData)
    requires ShapeOf(p) == L || ShapeOf(p) == LReverse
    ensures var bs := BodiesOf(p); var floor := bs[0]; var lip := bs[1];
      lip.width == LIP_WIDTH && lip.height == LIP_HEIGHT &&
      lip.y == p.y - 18.0 &&
      lip.y + lip.height / 2.0 == floor.y - floor.height / 2.0 &&
      (ShapeOf(p) == L ==> lip.x - lip.width / 2.0 == floor.x - floor.width / 2.0) &&
      (ShapeOf(p) == LReverse ==> lip.x + lip.width / 2.0 == floor.x + floor.width / 2.0)
  {
  }

  /** The T's two lips sit at the two edges, mirror images about the centre. */
  lemma TGeometry(p: PlatformData)
    requires ShapeOf(p) == T
    ensures var bs := BodiesOf(p); var floor := bs[0];
      bs[1].x + bs[2].x == 2.0 * floor.x &&
      bs[1].y == bs[2].y == floor.y - floor.height / 2.0 - LIP_HEIGHT / 2.0 &&
      bs[1].x - LIP_WIDTH / 2.0 == floor.x - floor.width / 2.0 &&
      bs[2].x + LIP_WIDTH / 2.0 == floor.x + floor.width / 2.0
  {
  }

  /** A slope: the ramp is `width - 50` wide, centred on the descriptor and
      turned -12 degrees (up) or +12 (down). The 25-wide pads reach exactly
      to +-width/2 and their inner edges meet the ramp's ends at
      +-rampWidth/2. The pads' vertical offsets are opposite, and each equals
      the vertical offset of the ramp's end on its side,
      (rampWidth/2) * sin(angle) with y pointing down; so for slope_up the
      right pad is the higher one. */
  lemma SlopeGeometry(p: PlatformData)
    requires IsSlope(ShapeOf(p))
    ensures var bs := BodiesOf(p); var w := WidthOf(p);
      var left := bs[0]; var ramp := bs[1]; var right := bs[2];
      var sinAngle := if ramp.angle < 0.0 then -SIN_SLOPE else SIN_SLOPE;
      ramp.width == w - 50.0 && ramp.x == p.x && ramp.y == p.y &&
      ramp.angle == (if ShapeOf(p) == SlopeUp then -12.0 else 12.0) &&
      left.width == SLOPE_FLAT_LENGTH && right.width == SLOPE_FLAT_LENGTH &&
      left.x - left.width / 2.0 == p.x - w / 2.0 &&
      right.x + right.width / 2.0 == p.x + w / 2.0 &&
      left.x + left.width / 2.0 == ramp.x - ramp.width / 2.0 &&
      right.x - right.width / 2.0 == ramp.x + ramp.width / 2.0 &&
      right.y - p.y == -(left.y - p.y) &&
      right.y - ramp.y == (ramp.width / 2.0) * sinAngle &&
      left.y - ramp.y == -(ramp.width / 2.0) * sinAngle &&
      (ShapeOf(p) == SlopeUp && w > 50.0 ==> right.y < left.y)
  {
  }
}
