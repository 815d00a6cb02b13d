/** The goat: a charge-and-release jump controller.  The physics engine owns
    position and velocity; the controller only reads them, writes velocity
    commands and flips its own flags. */
module PlayerEntity {
  import opened Util
  import Config

  /** Scene events the player emits. */
  datatype Event = PowerChanged(ratio: real) | JumpExecuted

  /** Calls the scene makes on the player whose bodies are not part of the
      player's code; the model only records that they happened. */
  datatype Hook = SetFrictionValue | ResetFriction | SetScreenScaleX(scale: real)

  /** Everything the controller's rules read or write. */
  datatype Snapshot = Snapshot(
    jumpPower: real,
    isCharging: bool,
    direction: int,
    isGrounded: bool,
    isOnGoalPlatform: bool,
    vx: real,
    vy: real,
    hasKeyboard: bool)

  /** One handler invocation: a key event (only delivered when a keyboard
      exists), a frame update, a knockback or a grounded-flag write. */
  datatype Input =
    | KeyDownLeft | KeyDownRight | KeyUpLeft | KeyUpRight
    | SpaceDown | SpaceUp
    | Tick(delta: real)
    | Knockback(directionX: real, force: real)
    | SetGrounded(grounded: bool, isGoal: bool)

  /** The controller's invariant: power within [0, max], direction in {-1, 0, 1}. */
  predicate Inv(s: Snapshot)
  {
    0.0 <= s.jumpPower <= Config.MAX_JUMP_POWER && -1 <= s.direction <= 1
  }

  /** The field initialisers; velocity starts at rest. */
  function Initial(hasKeyboard: bool): (s: Snapshot)
    ensures Inv(s)
    ensures s.jumpPower == 0.0 && !s.isCharging && s.direction == 0
    ensures !s.isGrounded && !s.isOnGoalPlatform
  {
    Snapshot(0.0, false, 0, false, false, 0.0, 0.0, hasKeyboard)
  }

  /** One frame of charging: `min(power + CHARGE_RATE * delta / 1000, max)`. */
  function ChargeStep(power: real, delta: real): real
  {
    Min(power + Config.CHARGE_RATE * delta / 1000.0, Config.MAX_JUMP_POWER)
  }

  /** The jump impulse for a direction and a power. */
  function JumpVelocity(direction: int, power: real): (real, real)
  {
    (direction as real * Config.HORIZONTAL_JUMP_RATIO * power, -power)
  }

  /** `jump`: only from the ground; commands the impulse and leaves the ground. */
  function Jump(s: Snapshot): Snapshot
  {
    if !s.isGrounded then s
    else
      var v := JumpVelocity(s.direction, s.jumpPower);
      s.(vx := v.0, vy := v.1, isGrounded := false)
  }

  predicate IsKeyInput(i: Input)
  {
    i.KeyDownLeft? || i.KeyDownRight? || i.KeyUpLeft? || i.KeyUpRight? || i.SpaceDown? || i.SpaceUp?
  }

  /** The effect of one handler invocation on the controller's state. */
  function Step(s: Snapshot, i: Input): Snapshot
  {
    if IsKeyInput(i) && !s.hasKeyboard then s
    else
      match i
      case KeyDownLeft => s.(direction := -1)
      case KeyDownRight => s.(direction := 1)
      case KeyUpLeft => if s.direction == -1 then s.(direction := 0) else s
      case KeyUpRight => if s.direction == 1 then s.(direction := 0) else s
      case SpaceDown => if s.isGrounded then s.(isCharging := true) else s
      case SpaceUp => if s.isCharging then Jump(s).(isCharging := false, jumpPower := 0.0) else s
      case Tick(delta) =>
        if s.isCharging && s.isGrounded then s.(jumpPower := ChargeStep(s.jumpPower, delta)) else s
      case Knockback(dx, force) => s.(vx := dx * force, vy := -force * 0.5, isGrounded := false)
      case SetGrounded(g, goal) => s.(isGrounded := g, isOnGoalPlatform := goal)
  }

  /** The events one handler invocation emits. */
  function Emitted(s: Snapshot, i: Input): seq<Event>
  {
    match i
    case SpaceUp =>
      if s.hasKeyboard && s.isCharging && s.isGrounded then [JumpExecuted] else []
    case Tick(delta) =>
      if s.isCharging && s.isGrounded
      then [PowerChanged(ChargeStep(s.jumpPower, delta) / Config.MAX_JUMP_POWER)]
      else []
    case _ => []
  }

  /** A sequence of handler invocations, applied in order. */
  function Run(s: Snapshot, inputs: seq<Input>): Snapshot
    decreases |inputs|
  {
    if |inputs| == 0 then s else Step(Run(s, inputs[..|inputs| - 1]), inputs[|inputs| - 1])
  }

  /** Frame updates with the given deltas. */
  function Ticks(deltas: seq<real>): (r: seq<Input>)
    ensures |r| == |deltas|
    ensures forall k :: 0 <= k < |r| ==> r[k] == Tick(deltas[k])
  {
    if |deltas| == 0 then [] else Ticks(deltas[..|deltas| - 1]) + [Tick(deltas[|deltas| - 1])]
  }

  function Sum(ds: seq<real>): real
  {
    if |ds| == 0 then 0.0 else Sum(ds[..|ds| - 1]) + ds[|ds| - 1]
  }

  predicate NonNegative(ds: seq<real>)
  {
    forall k :: 0 <= k < |ds| ==> ds[k] >= 0.0
  }

  /** `Math.round((MAP_HEIGHT - y) / 10)`, floored at 0: the height in metres. */
  function Height(y: real): nat
  {
    var r := Round((Config.MAP_HEIGHT - y) / 10.0);
    if r < 0 then 0 else r
  }

  // ---------------------------------------------------------------------
  // Properties of the rules

  /** Every handler keeps power in [0, max] and direction in {-1, 0, 1},
      given frame deltas are not negative. */
  lemma StepKeepsInv(s: Snapshot, i: Input)
    requires Inv(s)
    requires i.Tick? ==> i.delta >= 0.0
    ensures Inv(Step(s, i))
  {
  }

  lemma {:induction false} RunKeepsInv(s: Snapshot, inputs: seq<Input>)
    requires Inv(s)
    requires forall k :: 0 <= k < |inputs| && inputs[k].Tick? ==> inputs[k].delta >= 0.0
    ensures Inv(Run(s, inputs))
    decreases |inputs|
  {
    if |inputs| > 0 {
      var prefix := inputs[..|inputs| - 1];
      RunKeepsInv(s, prefix);
      StepKeepsInv(Run(s, prefix), inputs[|inputs| - 1]);
    }
  }

  /** Pressing space starts charging exactly when grounded (and the key can be
      delivered); nothing else changes. */
  lemma SpaceDownStartsChargingOnlyWhenGrounded(s: Snapshot)
    ensures Step(s, SpaceDown).isCharging <==> s.isCharging || (s.hasKeyboard && s.isGrounded)
    ensures Step(s, SpaceDown).(isCharging := s.isCharging) == s
    ensures Emitted(s, SpaceDown) == []
  {
  }

  /** Releasing space while charging ends the charge with power exactly 0 and
      jumps if grounded; releasing when not charging changes nothing. */
  lemma SpaceUpReleases(s: Snapshot)
    requires s.hasKeyboard
    ensures s.isCharging ==> !Step(s, SpaceUp).isCharging && Step(s, SpaceUp).jumpPower == 0.0
    ensures s.isCharging && s.isGrounded ==>
      (Step(s, SpaceUp).vx, Step(s, SpaceUp).vy) == JumpVelocity(s.direction, s.jumpPower) &&
      !Step(s, SpaceUp).isGrounded && Emitted(s, SpaceUp) == [JumpExecuted]
    ensures s.isCharging && !s.isGrounded ==>
      Step(s, SpaceUp) == s.(isCharging := false, jumpPower := 0.0) && Emitted(s, SpaceUp) == []
    ensures !s.isCharging ==> Step(s, SpaceUp) == s && Emitted(s, SpaceUp) == []
  {
  }

  /** `jump` does nothing in the air. */
  lemma JumpNeedsGround(s: Snapshot)
    ensures !s.isGrounded ==> Jump(s) == s
    ensures s.isGrounded ==> !Jump(s).isGrounded && Jump(s).jumpPower == s.jumpPower
  {
  }

  /** Power 20 to the right launches at (5, -20); straight up has no
      horizontal component. */
  lemma JumpVelocityExamples()
    ensures JumpVelocity(1, 20.0) == (5.0, -20.0)
    ensures JumpVelocity(-1, 20.0) == (-5.0, -20.0)
    ensures forall p :: JumpVelocity(0, p).0 == 0.0
  {
  }

  /** A frame while charging on the ground never lowers the power and never
      passes the maximum; any other frame leaves the power alone. */
  lemma TickChargesMonotonically(s: Snapshot, delta: real)
    requires Inv(s) && delta >= 0.0
    ensures s.jumpPower <= Step(s, Tick(delta)).jumpPower <= Config.MAX_JUMP_POWER
    ensures !(s.isCharging && s.isGrounded) ==> Step(s, Tick(delta)) == s
  {
  }

  /** Charging for a sequence of frames reaches `min(p + 0.05 * total ms, 25)`:
      the per-frame cap composes into one cap on the sum. */
  lemma {:induction false} ChargeAccumulates(s: Snapshot, deltas: seq<real>)
    requires Inv(s) && s.isCharging && s.isGrounded
    requires NonNegative(deltas)
    ensures var r := Run(s, Ticks(deltas));
      r == s.(jumpPower := Min(s.jumpPower + Config.CHARGE_RATE * Sum(deltas) / 1000.0, Config.MAX_JUMP_POWER))
    decreases |deltas|
  {
    if |deltas| > 0 {
      var prefix := deltas[..|deltas| - 1];
      assert Ticks(deltas)[..|deltas| - 1] == Ticks(prefix);
      ChargeAccumulates(s, prefix);
    }
  }

  /** A full charge from 0 takes half a second of frames. */
  lemma FullChargeAfterHalfSecond(s: Snapshot, deltas: seq<real>)
    requires Inv(s) && s.isCharging && s.isGrounded && s.jumpPower == 0.0
    requires NonNegative(deltas) && Sum(deltas) >= 500.0
    ensures Run(s, Ticks(deltas)).jumpPower == Config.MAX_JUMP_POWER
  {
    ChargeAccumulates(s, deltas);
  }

  /** Releasing an arrow resets direction only when it matches that arrow. */
  lemma ArrowRelease(s: Snapshot)
    requires s.hasKeyboard
    ensures Step(s, KeyUpLeft).direction == (if s.direction == -1 then 0 else s.direction)
    ensures Step(s, KeyUpRight).direction == (if s.direction == 1 then 0 else s.direction)
    ensures Step(s, KeyDownLeft).direction == -1 && Step(s, KeyDownRight).direction == 1
  {
  }

  /** Without a keyboard no key handler is registered. */
  lemma NoKeyboardIgnoresKeys(s: Snapshot, i: Input)
    requires !s.hasKeyboard && IsKeyInput(i)
    ensures Step(s, i) == s && Emitted(s, i) == []
  {
  }

  /** Knockback commands (dir * force, -force / 2), leaves the ground and keeps
      the charge. */
  lemma KnockbackKeepsCharge(s: Snapshot, dx: real, force: real)
    ensures var r := Step(s, Knockback(dx, force));
      r.vx == dx * force && r.vy == -force / 2.0 && !r.isGrounded &&
      r.isCharging == s.isCharging && r.jumpPower == s.jumpPower && r.direction == s.direction
  {
  }

  /** `setGrounded` overwrites both flags, the goal flag included. */
  lemma SetGroundedOverwrites(s: Snapshot, g: bool, goal: bool)
    ensures Step(s, SetGrounded(g, goal)).isGrounded == g
    ensures Step(s, SetGrounded(g, goal)).isOnGoalPlatform == goal
    ensures Step(s, SetGrounded(g, goal)).(isGrounded := s.isGrounded, isOnGoalPlatform := s.isOnGoalPlatform) == s
  {
  }

  /** The height is never negative, is 0 at or below the start line, grows as
      the goat climbs, and is within half a metre of the true height. */
  lemma HeightProperties(y: real, y2: real)
    ensures Height(y) >= 0
    ensures y >= Config.MAP_HEIGHT ==> Height(y) == 0
    ensures y <= Config.MAP_HEIGHT ==> -5.0 < Height(y) as real * 10.0 - (Config.MAP_HEIGHT - y) <= 5.0
    ensures y2 <= y ==> Height(y2) >= Height(y)
  {
    RoundMonotone((Config.MAP_HEIGHT - y) / 10.0, (Config.MAP_HEIGHT - y2) / 10.0);
  }

  lemma RoundMonotone(a: real, b: real)
    ensures a <= b ==> Round(a) <= Round(b)
  {
  }

  // ---------------------------------------------------------------------
  // The sprite as a stateful object

  class Player {
    var x: real
    var y: real
    var vx: real
    var vy: real
    var jumpPower: real
    var isCharging: bool
    var direction: int
    var isGrounded: bool
    var isOnGoalPlatform: bool
    const maxPower: real
    const hasKeyboard: bool
    /** Calls to members outside the player's code, in order. */
    var hooks: seq<Hook>
    /** Events emitted on the scene, in order. */
    var events: seq<Event>

    function State(): Snapshot
      reads this
    {
      Snapshot(jumpPower, isCharging, direction, isGrounded, isOnGoalPlatform, vx, vy, hasKeyboard)
    }

    predicate Valid()
      reads this
    {
      Inv(State()) && maxPower == Config.MAX_JUMP_POWER
    }

    /** `new Player(scene, x, y)`; `hasKeyboard` says whether the scene has a
        keyboard, which decides whether the key handlers get registered. */
    constructor (x0: real, y0: real, keyboard: bool)
      ensures Valid()
      ensures State() == Initial(keyboard)
      ensures x == x0 && y == y0 && hooks == [] && events == []
    {
      x, y := x0, y0;
      vx, vy := 0.0, 0.0;
      jumpPower := 0.0;
      isCharging := false;
      maxPower := Config.MAX_JUMP_POWER;
      direction := 0;
      isGrounded := false;
      isOnGoalPlatform := false;
      hasKeyboard := keyboard;
      hooks, events := [], [];
    }

    method OnKeyDownLeft()
      modifies this
      ensures old(Valid()) ==> Valid()
      ensures State() == Step(old(State()), KeyDownLeft)
      ensures x == old(x) && y == old(y) && hooks == old(hooks) && events == old(events)
    {
      if hasKeyboard {
        direction := -1;
      }
    }

    method OnKeyDownRight()
      modifies this
      ensures old(Valid()) ==> Valid()
      ensures State() == Step(old(State()), KeyDownRight)
      ensures x == old(x) && y == old(y) && hooks == old(hooks) && events == old(events)
    {
      if hasKeyboard {
        direction := 1;
      }
    }

    method OnKeyUpLeft()
      modifies this
      ensures old(Valid()) ==> Valid()
      ensures State() == Step(old(State()), KeyUpLeft)
      ensures x == old(x) && y == old(y) && hooks == old(hooks) && events == old(events)
    {
      if hasKeyboard && direction == -1 {
        direction := 0;
      }
    }

    method OnKeyUpRight()
      modifies this
      ensures old(Valid()) ==> Valid()
      ensures State() == Step(old(State()), KeyUpRight)
      ensures x == old(x) && y == old(y) && hooks == old(hooks) && events == old(events)
    {
      if hasKeyboard && direction == 1 {
        direction := 0;
      }
    }

    method OnSpaceDown()
      modifies this
      ensures old(Valid()) ==> Valid()
      ensures State() == Step(old(State()), SpaceDown)
      ensures x == old(x) && y == old(y) && hooks == old(hooks) && events == old(events)
    {
      if hasKeyboard && isGrounded {
        isCharging := true;
      }
    }

    method OnSpaceUp()
      modifies this
      ensures old(Valid()) ==> Valid()
      ensures State() == Step(old(State()), SpaceUp)
      ensures events == old(events) + Emitted(old(State()), SpaceUp)
      ensures x == old(x) && y == old(y) && hooks == old(hooks)
    {
      if hasKeyboard && isCharging {
        DoJump();
        isCharging := false;
        jumpPower := 0.0;
      }
    }

    /** `update(delta)`. */
    method Update(delta: real)
      requires maxPower == Config.MAX_JUMP_POWER
      modifies this
      ensures old(Valid()) && delta >= 0.0 ==> Valid()
      ensures State() == Step(old(State()), Tick(delta))
      ensures events == old(events) + Emitted(old(State()), Tick(delta))
      ensures x == old(x) && y == old(y) && hooks == old(hooks)
    {
      if isCharging && isGrounded {
        jumpPower := Min(jumpPower + Config.CHARGE_RATE * delta / 1000.0, maxPower);
        events := events + [PowerChanged(jumpPower / maxPower)];
      }
    }

    method DoJump()
      modifies this
      ensures State() == Jump(old(State()))
      ensures events == old(events) + (if old(isGrounded) then [JumpExecuted] else [])
      ensures x == old(x) && y == old(y) && hooks == old(hooks)
    {
      if !isGrounded {
        return;
      }
      var power := jumpPower;
      var dirX := direction as real * Config.HORIZONTAL_JUMP_RATIO * power;
      var dirY := -power;
      vx, vy := dirX, dirY;
      isGrounded := false;
      events := events + [JumpExecuted];
    }

    function GetHeight(): nat
      reads this
    {
      Height(y)
    }

    function GetJumpPower(): real
      reads this
    {
      jumpPower
    }

    function IsCurrentlyCharging(): bool
      reads this
    {
      isCharging
    }

    method SetGrounded(grounded: bool, isGoal: bool)
      modifies this
      ensures old(Valid()) ==> Valid()
      ensures State() == Step(old(State()), Input.SetGrounded(grounded, isGoal))
      ensures x == old(x) && y == old(y) && hooks == old(hooks) && events == old(events)
    {
      isGrounded := grounded;
      isOnGoalPlatform := isGoal;
    }

    /** `applyKnockback(directionX, force)`. */
    method ApplyKnockback(directionX: real, force: real)
      modifies this
      ensures old(Valid()) ==> Valid()
      ensures State() == Step(old(State()), Knockback(directionX, force))
      ensures x == old(x) && y == old(y) && hooks == old(hooks) && events == old(events)
    {
      vx, vy := directionX * force, -force * 0.5;
      isGrounded := false;
    }

    /** The scene's `setVelocityX` command (used by the wall bounce). */
    method SetVelocityX(v: real)
      modifies this
      ensures State() == old(State()).(vx := v)
      ensures x == old(x) && y == old(y) && hooks == old(hooks) && events == old(events)
    {
      vx := v;
    }

    /** The engine moving the sprite, or the scene's `setPosition`/`x =`. */
    method SetPosition(nx: real, ny: real)
      modifies this
      ensures x == nx && y == ny
      ensures State() == old(State()) && hooks == old(hooks) && events == old(events)
    {
      x, y := nx, ny;
    }

    /** A call to a member the player's code does not define: only recorded. */
    method CallHook(h: Hook)
      modifies this
      ensures hooks == old(hooks) + [h]
      ensures State() == old(State()) && x == old(x) && y == old(y) && events == old(events)
    {
      hooks := hooks + [h];
    }
  }
}
