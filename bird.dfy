/** A bird: a horizontal patrol between startX - range and startX + range
    that knocks the goat back in its flight direction. */
module BirdEntity {
  import opened Util
  import opened GameTypes
  import Config

  /** The frame length the patrol projects with (a fixed 16 ms). */
  const FRAME_SECONDS: real := 0.016

  /** `data.range || 200`. */
  function RangeOf(data: ObstacleData): real
  {
    OrDefault(data.range, 200.0)
  }

  /** `data.speed || BIRD_SPEED`. */
  function BaseSpeedOf(data: ObstacleData): real
  {
    OrDefault(Some(data.speed), Config.BIRD_SPEED)
  }

  /** `Math.random() > 0.5 ? 1 : -1`, with the coin toss as a parameter. */
  function InitialDirection(coin: bool): (d: int)
    ensures d == 1 || d == -1
    ensures coin <==> d == 1
  {
    if coin then 1 else -1
  }

  /** The x one frame ahead at the current heading. */
  function ProjectedX(x: real, moveSpeed: real, direction: int): real
  {
    x + moveSpeed * direction as real * FRAME_SECONDS
  }

  /** The direction after one patrol step: project the next x and reverse at
      the band edges. */
  function PatrolDirection(x: real, moveSpeed: real, direction: int, startX: real, range: real): (d: int)
    ensures var newX := ProjectedX(x, moveSpeed, direction);
      (newX > startX + range ==> d == -1) &&
      (startX - range <= newX <= startX + range ==> d == direction) &&
      (newX < startX - range && newX <= startX + range ==> d == 1)
  {
    var newX := ProjectedX(x, moveSpeed, direction);
    if newX > startX + range then -1
    else if newX < startX - range then 1
    else direction
  }

  /** The direction stays a unit: -1 or +1. */
  lemma PatrolKeepsUnitDirection(x: real, moveSpeed: real, direction: int, startX: real, range: real)
    requires direction == 1 || direction == -1
    ensures var d := PatrolDirection(x, moveSpeed, direction, startX, range); d == 1 || d == -1
  {
  }

  /** Whenever the projected x leaves the band, the new velocity command
      points back towards startX. */
  lemma ReversalHeadsBack(x: real, moveSpeed: real, direction: int, startX: real, range: real)
    requires moveSpeed > 0.0 && range >= 0.0
    ensures var newX := ProjectedX(x, moveSpeed, direction);
      var v := moveSpeed * PatrolDirection(x, moveSpeed, direction, startX, range) as real;
      (newX > startX + range ==> v < 0.0) && (newX < startX - range ==> v > 0.0)
  {
  }

  /** Inside the band the bird keeps its heading, so it only turns at an edge. */
  lemma NoTurnInsideBand(x: real, moveSpeed: real, direction: int, startX: real, range: real)
    requires var newX := ProjectedX(x, moveSpeed, direction);
      startX - range <= newX <= startX + range
    ensures PatrolDirection(x, moveSpeed, direction, startX, range) == direction
  {
  }

  class Bird {
    var x: real
    var y: real
    var vx: real
    var vy: real
    var startX: real
    const startY: real
    const moveRange: real
    const baseSpeed: real
    var moveSpeed: real
    var direction: int
    var screenScaleX: real

    predicate Valid()
      reads this
    {
      (direction == 1 || direction == -1) && moveSpeed == baseSpeed * screenScaleX
    }

    /** `new Bird(scene, data, scaleX)`; `coin` is `Math.random() > 0.5`. */
    constructor (data: ObstacleData, scaleX: real, coin: bool)
      ensures Valid()
      ensures x == data.x && y == data.y && vx == 0.0 && vy == 0.0
      ensures startX == data.x && startY == data.y
      ensures moveRange == RangeOf(data) && baseSpeed == BaseSpeedOf(data)
      ensures screenScaleX == scaleX && moveSpeed == BaseSpeedOf(data) * scaleX
      ensures direction == InitialDirection(coin)
    {
      x, y := data.x, data.y;
      vx, vy := 0.0, 0.0;
      screenScaleX := scaleX;
      startX := data.x;
      startY := data.y;
      var base := OrDefault(Some(data.speed), Config.BIRD_SPEED);
      moveRange := OrDefault(data.range, 200.0);
      baseSpeed := base;
      moveSpeed := base * scaleX;
      direction := 1;
      direction := if coin then 1 else -1;
    }

    /** `update()`: one patrol step and its velocity command. */
    method Update()
      requires Valid()
      modifies this
      ensures Valid()
      ensures direction == PatrolDirection(old(x), moveSpeed, old(direction), startX, moveRange)
      ensures vx == moveSpeed * direction as real && vy == 0.0
      ensures x == old(x) && y == old(y) && startX == old(startX)
      ensures moveSpeed == old(moveSpeed) && screenScaleX == old(screenScaleX)
    {
      ghost var target := PatrolDirection(x, moveSpeed, direction, startX, moveRange);
      var newX := ProjectedX(x, moveSpeed, direction);
      if newX > startX + moveRange {
        direction := -1;
      } else if newX < startX - moveRange {
        direction := 1;
      }
      assert direction == target;
      vx := moveSpeed * direction as real;
      vy := 0.0;
    }

    /** `getKnockbackDirection()`: the current heading, unchanged. */
    function GetKnockbackDirection(): (d: int)
      requires Valid()
      reads this
      ensures d == direction && (d == 1 || d == -1)
    {
      direction
    }

    /** `setScreenScaleX`: recomputed from the base speed, so calls never compound. */
    method SetScreenScaleX(scaleX: real)
      requires Valid()
      modifies this
      ensures Valid()
      ensures screenScaleX == scaleX && moveSpeed == baseSpeed * scaleX
      ensures x == old(x) && y == old(y) && vx == old(vx) && vy == old(vy)
      ensures startX == old(startX) && direction == old(direction)
    {
      screenScaleX := scaleX;
      moveSpeed := baseSpeed * screenScaleX;
    }

    /** `setStartX`: moves the patrol centre and nothing else. */
    method SetStartX(nx: real)
      modifies this
      ensures startX == nx
      ensures x == old(x) && y == old(y) && vx == old(vx) && vy == old(vy)
      ensures moveSpeed == old(moveSpeed) && direction == old(direction) && screenScaleX == old(screenScaleX)
    {
      startX := nx;
    }

    /** The engine moving the bird, or the scene's `setPosition`. */
    method SetPosition(nx: real, ny: real)
      modifies this
      ensures x == nx && y == ny
      ensures vx == old(vx) && vy == old(vy) && startX == old(startX)
      ensures moveSpeed == old(moveSpeed) && direction == old(direction) && screenScaleX == old(screenScaleX)
    {
      x, y := nx, ny;
    }
  }
}
