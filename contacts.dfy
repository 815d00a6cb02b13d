/** The collision rules of the game scene, as functions of the scene's
    bookkeeping: the three handlers (contact begin, persist and end) each
    run over the pairs of one engine event, in order. */
module Contacts {
  import opened Util
  import opened GameTypes
  import Config
  import PlayerEntity
  import SnowLeopardEntity

  /** The identity of a body in a contact pair.  Birds, leopards and platforms
      are named by their index in the scene's lists; an index past the end of
      the list is a body that the scene's `find` does not locate. */
  datatype Body =
    | PlayerBody
    | GoalSensor
    | Wall
    | BirdBody(bird: nat)
    | LeopardBody(leopard: nat)
    | PlatformBody(platform: nat)
    | Unlabelled

  datatype Pair = Pair(a: Body, b: Body)

  /** What the handlers read from the scene but never write. */
  datatype Context = Context(
    isIce: seq<bool>,          // per platform body, `getData("isIce") === true`
    birdDirections: seq<int>,  // per bird, `getKnockbackDirection()`
    hasSensor: bool)           // whether a goal door sensor was created

  /** The goat's fields the handlers write. */
  datatype PlayerView = PlayerView(
    isGrounded: bool,
    isOnGoalPlatform: bool,
    vx: real,
    vy: real,
    hooks: seq<PlayerEntity.Hook>)

  /** A leopard's fields the handlers write. */
  datatype LeopardView = LeopardView(phase: SnowLeopardEntity.Phase, hitWallCalls: nat)

  datatype State = State(
    colliding: set<nat>,        // `collidingPlatforms`
    icePlatform: Option<nat>,   // `currentIcePlatform`
    player: PlayerView,
    leopards: seq<LeopardView>,
    launches: seq<GameResult>,  // scenes launched by a game over
    paused: bool)

  predicate Involves(pair: Pair, b: Body)
  {
    pair.a == b || pair.b == b
  }

  /** The body opposite `b` in a pair that involves it. */
  function Other(pair: Pair, b: Body): Body
  {
    if pair.a == b then pair.b else pair.a
  }

  /** The platform index a body names, when the scene's list holds it. */
  predicate IsPlatform(ctx: Context, b: Body)
  {
    b.PlatformBody? && b.platform < |ctx.isIce|
  }

  predicate IsIcePlatform(ctx: Context, b: Body)
  {
    IsPlatform(ctx, b) && ctx.isIce[b.platform]
  }

  predicate IsSensor(ctx: Context, b: Body)
  {
    ctx.hasSensor && b == GoalSensor
  }

  /** `player.setGrounded(g, goal)`. */
  function SetGrounded(p: PlayerView, g: bool, goal: bool): PlayerView
  {
    p.(isGrounded := g, isOnGoalPlatform := goal)
  }

  function AddHook(p: PlayerView, h: PlayerEntity.Hook): PlayerView
  {
    p.(hooks := p.hooks + [h])
  }

  // ---------------------------------------------------------------------
  // Contact begin

  /** The goat's side of a begin pair.  The flag says whether the handler
      returned early, which skips the leopard pass for that pair. */
  function BeginPlayer(st: State, ctx: Context, loss: GameResult, other: Body): (State, bool)
  {
    if IsSensor(ctx, other) then
      (st.(player := st.player.(isOnGoalPlatform := true)), true)
    else if other.BirdBody? then
      if other.bird < |ctx.birdDirections| then
        var dir := ctx.birdDirections[other.bird] as real;
        var force := Config.BIRD_KNOCKBACK;
        (st.(player := st.player.(vx := dir * force, vy := -force * 0.5, isGrounded := false)), true)
      else (st, true)
    else if other.LeopardBody? then
      if other.leopard < |st.leopards| && st.leopards[other.leopard].phase != SnowLeopardEntity.Dead
      then (st.(launches := st.launches + [loss], paused := true), true)
      else (st, true)
    else if other == Wall then
      (st.(player := st.player.(vx := -st.player.vx * 0.8)), true)
    else if IsPlatform(ctx, other) then
      var i := other.platform;
      var st1 := st.(colliding := st.colliding + {i});
      var st2 := if ctx.isIce[i]
        then st1.(icePlatform := Some(i), player := AddHook(st1.player, PlayerEntity.SetFrictionValue))
        else st1;
      (st2.(player := SetGrounded(st2.player, true, false)), false)
    else (st, false)
  }

  /** One leopard's reaction to a begin pair. */
  function BeginLeopard(l: LeopardView, k: nat, ctx: Context, pair: Pair): LeopardView
  {
    if !Involves(pair, LeopardBody(k)) then l
    else
      var other := Other(pair, LeopardBody(k));
      if other == Wall then l.(hitWallCalls := l.hitWallCalls + 1)
      else if IsPlatform(ctx, other) && l.phase == SnowLeopardEntity.Falling
      then l.(phase := SnowLeopardEntity.Charging)
      else l
  }

  /** The leopard pass over the first `n` leopards. */
  function BeginLeopards(ls: seq<LeopardView>, ctx: Context, pair: Pair, n: nat): (r: seq<LeopardView>)
    requires n <= |ls|
    ensures |r| == |ls|
    ensures forall k :: 0 <= k < n ==> r[k] == BeginLeopard(ls[k], k, ctx, pair)
    ensures forall k :: n <= k < |ls| ==> r[k] == ls[k]
  {
    if n == 0 then ls
    else BeginLeopards(ls, ctx, pair, n - 1)[n - 1 := BeginLeopard(ls[n - 1], n - 1, ctx, pair)]
  }

  function BeginPair(st: State, ctx: Context, loss: GameResult, pair: Pair): State
  {
    var (st1, returned) :=
      if Involves(pair, PlayerBody) then BeginPlayer(st, ctx, loss, Other(pair, PlayerBody)) else (st, false);
    if returned then st1
    else st1.(leopards := BeginLeopards(st1.leopards, ctx, pair, |st1.leopards|))
  }

  /** The `collisionstart` handler over an event's pairs. */
  function Begin(st: State, ctx: Context, loss: GameResult, pairs: seq<Pair>): State
    decreases |pairs|
  {
    if |pairs| == 0 then st else BeginPair(Begin(st, ctx, loss, pairs[..|pairs| - 1]), ctx, loss, pairs[|pairs| - 1])
  }

  // ---------------------------------------------------------------------
  // Contact persist

  /** One persist pair; the flag accumulates `isOnIce`. */
  function PersistPair(st: State, onIce: bool, ctx: Context, pair: Pair): (State, bool)
  {
    if !Involves(pair, PlayerBody) then (st, onIce)
    else
      var other := Other(pair, PlayerBody);
      if IsSensor(ctx, other) then (st.(player := st.player.(isOnGoalPlatform := true)), onIce)
      else if IsPlatform(ctx, other) then
        var i := other.platform;
        var st1 := st.(colliding := st.colliding + {i});
        if ctx.isIce[i] then (st1.(icePlatform := Some(i)), true) else (st1, onIce)
      else (st, onIce)
  }

  function PersistLoop(st: State, ctx: Context, pairs: seq<Pair>): (State, bool)
    decreases |pairs|
  {
    if |pairs| == 0 then (st, false)
    else
      var (st1, onIce) := PersistLoop(st, ctx, pairs[..|pairs| - 1]);
      PersistPair(st1, onIce, ctx, pairs[|pairs| - 1])
  }

  /** The `collisionactive` handler: the loop, then leaving the ice if no pair
      was ice, then re-asserting the ground if any platform is touched. */
  function Persist(st: State, ctx: Context, pairs: seq<Pair>): State
  {
    var (st1, onIce) := PersistLoop(st, ctx, pairs);
    var st2 := if !onIce && st1.icePlatform.Some?
      then st1.(icePlatform := None, player := AddHook(st1.player, PlayerEntity.ResetFriction))
      else st1;
    if |st2.colliding| > 0 then st2.(player := SetGrounded(st2.player, true, false)) else st2
  }

  // ---------------------------------------------------------------------
  // Contact end

  function EndPair(st: State, ctx: Context, pair: Pair): State
  {
    if !Involves(pair, PlayerBody) then st
    else
      var other := Other(pair, PlayerBody);
      if IsSensor(ctx, other) then st.(player := st.player.(isOnGoalPlatform := false))
      else if IsPlatform(ctx, other) then
        var i := other.platform;
        var st1 := st.(colliding := st.colliding - {i});
        if ctx.isIce[i]
        then st1.(icePlatform := None, player := AddHook(st1.player, PlayerEntity.ResetFriction))
        else st1
      else st
  }

  function EndLoop(st: State, ctx: Context, pairs: seq<Pair>): State
    decreases |pairs|
  {
    if |pairs| == 0 then st else EndPair(EndLoop(st, ctx, pairs[..|pairs| - 1]), ctx, pairs[|pairs| - 1])
  }

  /** The `collisionend` handler: the loop, then going airborne (and leaving
      any ice) once no platform is touched. */
  function End(st: State, ctx: Context, pairs: seq<Pair>): State
  {
    var st1 := EndLoop(st, ctx, pairs);
    if |st1.colliding| == 0 then
      var st2 := st1.(player := SetGrounded(st1.player, false, false));
      if st2.icePlatform.Some?
      then st2.(icePlatform := None, player := AddHook(st2.player, PlayerEntity.ResetFriction))
      else st2
    else st1
  }

  // ---------------------------------------------------------------------
  // Properties

  /** Whether a pair is the goat touching platform `i`. */
  predicate Touches(ctx: Context, pair: Pair, i: nat)
  {
    Involves(pair, PlayerBody) && Other(pair, PlayerBody) == PlatformBody(i) && i < |ctx.isIce|
  }

  /** The platforms the goat touches in a list of pairs. */
  function Touched(ctx: Context, pairs: seq<Pair>): set<nat>
  {
    set k, i | 0 <= k < |pairs| && 0 <= i < |ctx.isIce| && Touches(ctx, pairs[k], i) :: i
  }

  lemma TouchedSnoc(ctx: Context, pairs: seq<Pair>)
    requires |pairs| > 0
    ensures Touched(ctx, pairs) ==
      Touched(ctx, pairs[..|pairs| - 1]) +
      (if IsPlatform(ctx, Other(pairs[|pairs| - 1], PlayerBody)) && Involves(pairs[|pairs| - 1], PlayerBody)
       then {Other(pairs[|pairs| - 1], PlayerBody).platform} else {})
  {
    var last := pairs[|pairs| - 1];
    var prefix := pairs[..|pairs| - 1];
    var extra: set<nat> := if IsPlatform(ctx, Other(last, PlayerBody)) && Involves(last, PlayerBody)
      then {Other(last, PlayerBody).platform} else {};
    forall i | i in Touched(ctx, pairs)
      ensures i in Touched(ctx, prefix) + extra
    {
      var k :| 0 <= k < |pairs| && 0 <= i < |ctx.isIce| && Touches(ctx, pairs[k], i);
      if k < |pairs| - 1 {
        assert pairs[k] == prefix[k];
      }
    }
    forall i | i in Touched(ctx, prefix) + extra
      ensures i in Touched(ctx, pairs)
    {
      if i in Touched(ctx, prefix) {
        var k :| 0 <= k < |prefix| && 0 <= i < |ctx.isIce| && Touches(ctx, prefix[k], i);
        assert pairs[k] == prefix[k];
      } else {
        assert Touches(ctx, pairs[|pairs| - 1], i);
      }
    }
  }

  /** Contact begin adds exactly the touched platforms to the set. */
  lemma {:induction false} BeginAddsTouched(st: State, ctx: Context, loss: GameResult, pairs: seq<Pair>)
    ensures Begin(st, ctx, loss, pairs).colliding == st.colliding + Touched(ctx, pairs)
    decreases |pairs|
  {
    if |pairs| > 0 {
      BeginAddsTouched(st, ctx, loss, pairs[..|pairs| - 1]);
      TouchedSnoc(ctx, pairs);
      BeginPairColliding(Begin(st, ctx, loss, pairs[..|pairs| - 1]), ctx, loss, pairs[|pairs| - 1]);
    }
  }

  /** One begin pair adds the platform the goat touches in it, if any. */
  lemma BeginPairColliding(st: State, ctx: Context, loss: GameResult, pair: Pair)
    ensures BeginPair(st, ctx, loss, pair).colliding == st.colliding +
      (if IsPlatform(ctx, Other(pair, PlayerBody)) && Involves(pair, PlayerBody)
       then {Other(pair, PlayerBody).platform} else {})
  {
  }

  /** The persist loop re-adds exactly the touched platforms. */
  lemma {:induction false} PersistLoopAddsTouched(st: State, ctx: Context, pairs: seq<Pair>)
    ensures PersistLoop(st, ctx, pairs).0.colliding == st.colliding + Touched(ctx, pairs)
    decreases |pairs|
  {
    if |pairs| > 0 {
      PersistLoopAddsTouched(st, ctx, pairs[..|pairs| - 1]);
      TouchedSnoc(ctx, pairs);
    }
  }

  lemma PersistAddsTouched(st: State, ctx: Context, pairs: seq<Pair>)
    ensures Persist(st, ctx, pairs).colliding == st.colliding + Touched(ctx, pairs)
  {
    PersistLoopAddsTouched(st, ctx, pairs);
  }

  /** Contact end removes exactly the touched platforms from the set. */
  lemma {:induction false} EndLoopRemovesTouched(st: State, ctx: Context, pairs: seq<Pair>)
    ensures EndLoop(st, ctx, pairs).colliding == st.colliding - Touched(ctx, pairs)
    decreases |pairs|
  {
    if |pairs| > 0 {
      EndLoopRemovesTouched(st, ctx, pairs[..|pairs| - 1]);
      TouchedSnoc(ctx, pairs);
    }
  }

  /** The end loop never sets the ground flag or the goal flag. */
  lemma {:induction false} EndLoopKeepsGroundAndLowersGoal(st: State, ctx: Context, pairs: seq<Pair>)
    ensures EndLoop(st, ctx, pairs).player.isGrounded == st.player.isGrounded
    ensures EndLoop(st, ctx, pairs).player.isOnGoalPlatform ==> st.player.isOnGoalPlatform
    decreases |pairs|
  {
    if |pairs| > 0 {
      EndLoopKeepsGroundAndLowersGoal(st, ctx, pairs[..|pairs| - 1]);
    }
  }

  /** After contact end: with no platform left the goat is airborne, off the
      goal and off the ice; otherwise its ground flag is untouched. */
  lemma EndGrounding(st: State, ctx: Context, pairs: seq<Pair>)
    ensures var r := End(st, ctx, pairs);
      r.colliding == st.colliding - Touched(ctx, pairs) &&
      (|r.colliding| == 0 ==> !r.player.isGrounded && !r.player.isOnGoalPlatform && r.icePlatform.None?) &&
      (|r.colliding| > 0 ==> r.player.isGrounded == st.player.isGrounded)
  {
    EndLoopRemovesTouched(st, ctx, pairs);
    EndLoopKeepsGroundAndLowersGoal(st, ctx, pairs);
  }

  /** Which pairs can raise the goal flag: only a goat/sensor pair. */
  predicate SensorPair(ctx: Context, pair: Pair)
  {
    Involves(pair, PlayerBody) && IsSensor(ctx, Other(pair, PlayerBody))
  }

  /** Contact begin sets the goal flag only through a sensor pair. */
  lemma {:induction false} OnlySensorRaisesGoal(st: State, ctx: Context, loss: GameResult, pairs: seq<Pair>)
    requires !st.player.isOnGoalPlatform
    requires forall k :: 0 <= k < |pairs| ==> !SensorPair(ctx, pairs[k])
    ensures !Begin(st, ctx, loss, pairs).player.isOnGoalPlatform
    decreases |pairs|
  {
    if |pairs| > 0 {
      OnlySensorRaisesGoal(st, ctx, loss, pairs[..|pairs| - 1]);
    }
  }

  /** The persist loop sets the goal flag only through a sensor pair. */
  lemma {:induction false} PersistLoopOnlySensorRaisesGoal(st: State, ctx: Context, pairs: seq<Pair>)
    requires forall k :: 0 <= k < |pairs| ==> !SensorPair(ctx, pairs[k])
    ensures PersistLoop(st, ctx, pairs).0.player.isOnGoalPlatform ==> st.player.isOnGoalPlatform
    decreases |pairs|
  {
    if |pairs| > 0 {
      PersistLoopOnlySensorRaisesGoal(st, ctx, pairs[..|pairs| - 1]);
    }
  }

  /** Contact persist without a sensor pair never raises the goal flag: its
      closing steps only add a hook or lower the flag. */
  lemma PersistOnlySensorRaisesGoal(st: State, ctx: Context, pairs: seq<Pair>)
    requires forall k :: 0 <= k < |pairs| ==> !SensorPair(ctx, pairs[k])
    ensures Persist(st, ctx, pairs).player.isOnGoalPlatform ==> st.player.isOnGoalPlatform
  {
    PersistLoopOnlySensorRaisesGoal(st, ctx, pairs);
  }

  /** Order matters: a platform pair after the sensor pair in the same begin
      event clears the goal flag again, while the other order leaves it set. */
  lemma SensorThenPlatform(st: State, ctx: Context, loss: GameResult, i: nat)
    requires ctx.hasSensor && i < |ctx.isIce|
    ensures !Begin(st, ctx, loss, [Pair(PlayerBody, GoalSensor), Pair(PlayerBody, PlatformBody(i))]).player.isOnGoalPlatform
    ensures Begin(st, ctx, loss, [Pair(PlayerBody, PlatformBody(i)), Pair(GoalSensor, PlayerBody)]).player.isOnGoalPlatform
  {
    var s1 := [Pair(PlayerBody, GoalSensor), Pair(PlayerBody, PlatformBody(i))];
    var s2 := [Pair(PlayerBody, PlatformBody(i)), Pair(GoalSensor, PlayerBody)];
    assert s1[..1] == [s1[0]] && s2[..1] == [s2[0]];
  }

  /** After a persist event that leaves any platform touched, the goat is
      grounded and NOT on the goal, even when the event held a sensor pair. */
  lemma PersistClearsGoal(st: State, ctx: Context, pairs: seq<Pair>)
    requires |st.colliding| > 0 || Touched(ctx, pairs) != {}
    ensures Persist(st, ctx, pairs).player.isGrounded
    ensures !Persist(st, ctx, pairs).player.isOnGoalPlatform
  {
    PersistLoopAddsTouched(st, ctx, pairs);
    var c := Persist(st, ctx, pairs).colliding;
    if |st.colliding| > 0 {
      var x :| x in st.colliding;
      assert x in c;
    } else {
      var x :| x in Touched(ctx, pairs);
      assert x in c;
    }
  }

  /** Whether a pair is the goat on an ice platform. */
  predicate IcePair(ctx: Context, pair: Pair)
  {
    Involves(pair, PlayerBody) && IsIcePlatform(ctx, Other(pair, PlayerBody))
  }

  /** The persist loop's flag is set exactly when some pair is an ice pair,
      and it never lowers friction: it adds no hooks at all. */
  lemma {:induction false} PersistLoopIce(st: State, ctx: Context, pairs: seq<Pair>)
    ensures var (r, onIce) := PersistLoop(st, ctx, pairs);
      (onIce <==> exists k :: 0 <= k < |pairs| && IcePair(ctx, pairs[k])) &&
      r.player.hooks == st.player.hooks &&
      (!onIce ==> r.icePlatform == st.icePlatform) &&
      (onIce ==> r.icePlatform.Some? && r.icePlatform.value < |ctx.isIce| && ctx.isIce[r.icePlatform.value])
    decreases |pairs|
  {
    if |pairs| > 0 {
      var prefix := pairs[..|pairs| - 1];
      PersistLoopIce(st, ctx, prefix);
      var (r0, ice0) := PersistLoop(st, ctx, prefix);
      if ice0 {
        var k :| 0 <= k < |prefix| && IcePair(ctx, prefix[k]);
        assert pairs[k] == prefix[k];
      }
      if exists k :: 0 <= k < |pairs| && IcePair(ctx, pairs[k]) {
        var k :| 0 <= k < |pairs| && IcePair(ctx, pairs[k]);
        if k < |pairs| - 1 {
          assert prefix[k] == pairs[k];
        }
      }
    }
  }

  /** Persist keeps the recorded ice platform exactly when some pair is on
      ice; it leaves the ice (restoring friction, once) when none is, and it
      never calls the friction-lowering hook. */
  lemma PersistIceRule(st: State, ctx: Context, pairs: seq<Pair>)
    ensures var r := Persist(st, ctx, pairs);
      var anyIce := exists k :: 0 <= k < |pairs| && IcePair(ctx, pairs[k]);
      (anyIce ==> r.icePlatform.Some? && r.player.hooks == st.player.hooks) &&
      (!anyIce ==> r.icePlatform.None?) &&
      (!anyIce && st.icePlatform.Some? ==> r.player.hooks == st.player.hooks + [PlayerEntity.ResetFriction]) &&
      (!anyIce && st.icePlatform.None? ==> r.player.hooks == st.player.hooks)
  {
    PersistLoopIce(st, ctx, pairs);
  }

  /** A goat touching a dead leopard changes nothing; an alive one ends the
      game once. */
  lemma LeopardContact(st: State, ctx: Context, loss: GameResult, k: nat)
    requires k < |st.leopards|
    ensures st.leopards[k].phase == SnowLeopardEntity.Dead ==>
      Begin(st, ctx, loss, [Pair(PlayerBody, LeopardBody(k))]) == st
    ensures st.leopards[k].phase != SnowLeopardEntity.Dead ==>
      Begin(st, ctx, loss, [Pair(PlayerBody, LeopardBody(k))]) == st.(launches := st.launches + [loss], paused := true)
  {
    assert [Pair(PlayerBody, LeopardBody(k))][..0] == [];
  }

  /** A bird knocks the goat along the bird's heading with force 15. */
  lemma BirdKnockback(st: State, ctx: Context, loss: GameResult, k: nat)
    requires k < |ctx.birdDirections|
    ensures var r := Begin(st, ctx, loss, [Pair(BirdBody(k), PlayerBody)]);
      r.player.vx == ctx.birdDirections[k] as real * 15.0 && r.player.vy == -7.5 &&
      !r.player.isGrounded && r.colliding == st.colliding && r.leopards == st.leopards
  {
    assert [Pair(BirdBody(k), PlayerBody)][..0] == [];
  }

  /** A wall reverses the goat's horizontal speed, damped to 80%. */
  lemma WallBounce(st: State, ctx: Context, loss: GameResult)
    ensures Begin(st, ctx, loss, [Pair(PlayerBody, Wall)]) == st.(player := st.player.(vx := -0.8 * st.player.vx))
  {
    assert [Pair(PlayerBody, Wall)][..0] == [];
  }

  /** In contact begin, a leopard's phase changes only from Falling to
      Charging, and its wall-hit count only grows. */
  lemma {:induction false} BeginLeopardPhases(st: State, ctx: Context, loss: GameResult, pairs: seq<Pair>)
    ensures |Begin(st, ctx, loss, pairs).leopards| == |st.leopards|
    ensures forall k :: 0 <= k < |st.leopards| ==>
      var before := st.leopards[k];
      var after := Begin(st, ctx, loss, pairs).leopards[k];
      (after.phase == before.phase || (before.phase == SnowLeopardEntity.Falling && after.phase == SnowLeopardEntity.Charging)) &&
      after.hitWallCalls >= before.hitWallCalls
    decreases |pairs|
  {
    if |pairs| > 0 {
      BeginLeopardPhases(st, ctx, loss, pairs[..|pairs| - 1]);
      BeginPairLeopardPhases(Begin(st, ctx, loss, pairs[..|pairs| - 1]), ctx, loss, pairs[|pairs| - 1]);
    }
  }

  /** The same for one begin pair. */
  lemma BeginPairLeopardPhases(st: State, ctx: Context, loss: GameResult, pair: Pair)
    ensures |BeginPair(st, ctx, loss, pair).leopards| == |st.leopards|
    ensures forall k :: 0 <= k < |st.leopards| ==>
      var before := st.leopards[k];
      var after := BeginPair(st, ctx, loss, pair).leopards[k];
      (after.phase == before.phase || (before.phase == SnowLeopardEntity.Falling && after.phase == SnowLeopardEntity.Charging)) &&
      after.hitWallCalls >= before.hitWallCalls
  {
  }
}
