/** The game's global constants: reference geometry, the debug switches, the
    Matter.js collision filter table and the tuning constants. */
module Config {
  import opened Util

  // Reference resolution: every authored x coordinate is relative to this width.
  const GAME_WIDTH: real := 960.0
  const GAME_HEIGHT: real := 540.0
  const MAP_HEIGHT: real := 5500.0

  /** A viewport this wide or narrower uses the mobile layout. */
  const MOBILE_BREAKPOINT: real := 960.0

  // Debug switches.
  const START_PLATFORM_INDEX: Option<int> := None
  const DISABLE_LEOPARD_RESPAWN: bool := true

  // Collision categories (one bit each) of the Matter.js collision filter.
  const CATEGORY_PLAYER: bv32 := 0x0001
  const CATEGORY_PLATFORM: bv32 := 0x0002
  const CATEGORY_BIRD: bv32 := 0x0004
  const CATEGORY_LEOPARD: bv32 := 0x0008

  // Collision masks: which categories a body of each kind collides with.
  const MASK_PLAYER: bv32 := CATEGORY_PLATFORM | CATEGORY_BIRD | CATEGORY_LEOPARD
  const MASK_PLATFORM: bv32 := CATEGORY_PLAYER | CATEGORY_LEOPARD
  const MASK_BIRD: bv32 := CATEGORY_PLAYER
  const MASK_LEOPARD: bv32 := CATEGORY_PLAYER | CATEGORY_PLATFORM

  // Tuning constants.
  const PLAYER_FRICTION: real := 0.005
  const PLAYER_BOUNCE: real := 0.2
  const MAX_JUMP_POWER: real := 25.0
  const CHARGE_RATE: real := 50.0  // power per second
  const HORIZONTAL_JUMP_RATIO: real := 0.25
  const PLATFORM_FRICTION_NORMAL: real := 0.1
  const PLATFORM_FRICTION_ICE: real := 0.0005
  const BIRD_SPEED: real := 100.0
  const BIRD_KNOCKBACK: real := 15.0
  const LEOPARD_SPEED: real := 150.0
  const LEOPARD_DETECT_RANGE: real := 300.0
  const CAMERA_LERP_Y: real := 0.1
  const FALL_CAMERA_SPEED: real := 1.5

  /** The four kinds of body that carry a collision category. */
  datatype Kind = PlayerKind | PlatformKind | BirdKind | LeopardKind

  function Category(k: Kind): bv32
  {
    match k
    case PlayerKind => CATEGORY_PLAYER
    case PlatformKind => CATEGORY_PLATFORM
    case BirdKind => CATEGORY_BIRD
    case LeopardKind => CATEGORY_LEOPARD
  }

  function Mask(k: Kind): bv32
  {
    match k
    case PlayerKind => MASK_PLAYER
    case PlatformKind => MASK_PLATFORM
    case BirdKind => MASK_BIRD
    case LeopardKind => MASK_LEOPARD
  }

  /** Body kind `a` accepts contacts from body kind `b`. */
  predicate Accepts(a: Kind, b: Kind)
  {
    Mask(a) & Category(b) != 0
  }

  /** Matter.js makes two bodies collide only when each accepts the other. */
  predicate Collide(a: Kind, b: Kind)
  {
    Accepts(a, b) && Accepts(b, a)
  }

  /** Every category is a single bit, and distinct kinds have disjoint bits. */
  lemma CategoriesAreDistinctBits(a: Kind, b: Kind)
    ensures Category(a) != 0 && Category(a) & (Category(a) - 1) == 0
    ensures a != b ==> Category(a) & Category(b) == 0
  {
  }

  /** The player mask is exactly platform | bird | leopard: no player-player contact. */
  lemma PlayerMaskExact(k: Kind)
    ensures Accepts(PlayerKind, k) <==> k != PlayerKind
  {
  }

  /** Birds accept only the player, and platforms do not accept birds:
      birds pass through platforms. The leopard mask has neither the leopard nor
      the bird bit. */
  lemma BirdsAndLeopardsFilters(k: Kind)
    ensures Accepts(BirdKind, k) <==> k == PlayerKind
    ensures !Accepts(PlatformKind, BirdKind) && !Collide(BirdKind, PlatformKind)
    ensures !Accepts(LeopardKind, LeopardKind) && !Accepts(LeopardKind, BirdKind)
  {
  }

  /** The table is symmetric: whenever one side accepts, so does the other. */
  lemma MaskTableSymmetric(a: Kind, b: Kind)
    ensures Accepts(a, b) <==> Accepts(b, a)
    ensures Collide(a, b) <==> Accepts(a, b)
  {
  }

  /** The breakpoint equals the reference width, a full charge takes half a
      second, and leopard respawn is switched off. */
  lemma ConfigFacts()
    ensures MOBILE_BREAKPOINT == GAME_WIDTH
    ensures MAX_JUMP_POWER / CHARGE_RATE == 0.5
    ensures DISABLE_LEOPARD_RESPAWN
  {
  }
}
