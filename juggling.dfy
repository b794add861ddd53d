/**
 * The juggling game of js/juggling.js: squares fall, bounce off the side
 * walls and the ceiling, and are kept off the floor by a paddle (moved by the
 * arrow/A/D keys, the mouse or a touch) or by tapping them. A new square
 * appears every five seconds and the squares speed up with time; the run
 * ends as soon as one square touches the floor.
 *
 * The game record is a class whose methods are the game's events. What the
 * page reads from the browser becomes a parameter: the play area's width and
 * height, the seconds elapsed since the start, the pointer's position in the
 * area, and the random draws of a new square (a Spawn).
 */
module Juggling {
  import opened Numbers
  import opened Scores

  const PaddleWidth: real := 120.0
  /** How far a held arrow key moves the paddle in one frame. */
  const MoveSpeed: real := 15.0
  /** The paddle spans from 30 to 10 above the area's bottom. */
  const PaddleTopGap: real := 30.0
  const PaddleBottomGap: real := 10.0
  /** Seconds between two new squares. */
  const SpawnInterval: real := 5.0
  const BaseSpeed: real := 2.0
  /** Speed gained per second of play. */
  const SpeedRamp: real := 0.05
  /** A tap throws a square up at this multiple of the current speed. */
  const JumpFactor: real := 1.2
  /** Horizontal speed given to a square hit at the paddle's edge. */
  const HitSpeedX: real := 5.0

  /** A moving square: the position of its top-left corner, its velocity and its side. */
  datatype Item = Item(x: real, y: real, speedX: real, speedY: real, size: real)

  /**
   * The random draws of one new square: a whole side of 20 to 39 pixels,
   * a whole left offset, and a horizontal speed in [-2, 2).
   */
  datatype Spawn = Spawn(size: int, x: int, speedX: real)

  predicate ValidSpawn(s: Spawn)
  {
    20 <= s.size <= 39 && -2.0 <= s.speedX < 2.0
  }

  /** A new square starts at the top, falling at the current item speed. */
  function NewItem(s: Spawn, itemSpeed: real): (r: Item)
    ensures r.y == 0.0 && r.speedY == itemSpeed
    ensures r.x == s.x as real && r.speedX == s.speedX && r.size == s.size as real
    ensures ValidSpawn(s) ==> 20.0 <= r.size < 40.0 && -2.0 <= r.speedX < 2.0
  {
    Item(s.x as real, 0.0, s.speedX, itemSpeed, s.size as real)
  }

  /** The square touches the left or the right wall. */
  predicate HitsSideWall(it: Item, width: real)
  {
    it.x <= 0.0 || it.x + it.size >= width
  }

  /**
   * The square's rectangle and the paddle's rectangle overlap; both are
   * closed, so touching edges count.
   */
  predicate OverlapsPaddle(it: Item, paddleX: real, height: real)
  {
    && it.y + it.size >= height - PaddleTopGap
    && it.y <= height - PaddleBottomGap
    && it.x + it.size >= paddleX
    && it.x <= paddleX + PaddleWidth
  }

  /** The square's bottom edge has reached the floor. */
  predicate ReachesFloor(it: Item, height: real)
  {
    it.y + it.size >= height
  }

  predicate AnyReachesFloor(items: seq<Item>, height: real)
  {
    exists j :: 0 <= j < |items| && ReachesFloor(items[j], height)
  }

  /**
   * Side walls, applied after the move: a square at or past a wall has its
   * horizontal speed reversed and is put back against that wall.
   */
  function BounceSideWalls(it: Item, width: real): (r: Item)
    ensures r.y == it.y && r.speedY == it.speedY && r.size == it.size
    ensures r.speedX == if HitsSideWall(it, width) then -it.speedX else it.speedX
    ensures !HitsSideWall(it, width) ==> r.x == it.x
    ensures it.size <= width ==> 0.0 <= r.x <= width - it.size
    ensures it.size <= width ==> r.x == Max(0.0, Min(it.x, width - it.size))
  {
    if HitsSideWall(it, width) then
      it.(speedX := -it.speedX, x := if it.x <= 0.0 then 0.0 else width - it.size)
    else it
  }

  /** Ceiling, applied after the walls: a square at or above the top has its vertical speed reversed and sits at 0. */
  function BounceCeiling(it: Item): (r: Item)
    ensures r.x == it.x && r.speedX == it.speedX && r.size == it.size
    ensures r.speedY == if it.y <= 0.0 then -it.speedY else it.speedY
    ensures r.y == Max(it.y, 0.0)
  {
    if it.y <= 0.0 then it.(speedY := -it.speedY, y := 0.0) else it
  }

  /**
   * The paddle, applied last: an overlapping square is sent up at the
   * current speed, is put on the paddle's top, and gets a horizontal speed
   * proportional to how far its centre is from the paddle's centre, 5 at
   * the paddle's edges.
   */
  function BouncePaddle(it: Item, paddleX: real, height: real, itemSpeed: real): (r: Item)
    ensures !OverlapsPaddle(it, paddleX, height) ==> r == it
    ensures OverlapsPaddle(it, paddleX, height) ==>
      && r.x == it.x && r.size == it.size
      && r.speedY == -itemSpeed
      && r.y + r.size == height - PaddleTopGap
      && r.speedX * (PaddleWidth / 2.0) == HitSpeedX * ((it.x + it.size / 2.0) - (paddleX + PaddleWidth / 2.0))
  {
    if OverlapsPaddle(it, paddleX, height) then
      var paddleCenter := paddleX + PaddleWidth / 2.0;
      var itemCenter := it.x + it.size / 2.0;
      var hitPosition := (itemCenter - paddleCenter) / (PaddleWidth / 2.0);
      it.(speedX := hitPosition * HitSpeedX, speedY := -itemSpeed, y := height - PaddleTopGap - it.size)
    else it
  }

  /**
   * One frame of one square: move by its velocity, then walls, ceiling and
   * paddle in that order. The square keeps its size, and one no wider than
   * the area ends the frame inside the area's width.
   */
  function MoveItem(it: Item, width: real, height: real, paddleX: real, itemSpeed: real): (r: Item)
    ensures r.size == it.size
    ensures it.size <= width ==> 0.0 <= r.x <= width - it.size
    ensures it.size <= width ==> r.x == Max(0.0, Min(it.x + it.speedX, width - it.size))
  {
    var moved := it.(x := it.x + it.speedX, y := it.y + it.speedY);
    BouncePaddle(BounceCeiling(BounceSideWalls(moved, width)), paddleX, height, itemSpeed)
  }

  /** One frame of every square. */
  function MoveAll(items: seq<Item>, width: real, height: real, paddleX: real, itemSpeed: real): (r: seq<Item>)
    ensures |r| == |items|
  {
    seq(|items|, i requires 0 <= i < |items| => MoveItem(items[i], width, height, paddleX, itemSpeed))
  }

  /**
   * What a frame does to a square that does not meet the paddle: its
   * horizontal speed is reversed exactly when it reaches a side wall, its
   * vertical speed exactly when it reaches the ceiling, and it ends inside
   * the area's width and not above the top.
   */
  lemma MoveItemFreeFlight(it: Item, width: real, height: real, paddleX: real, itemSpeed: real)
    requires it.size <= width
    requires var moved := it.(x := it.x + it.speedX, y := it.y + it.speedY);
      !OverlapsPaddle(BounceCeiling(BounceSideWalls(moved, width)), paddleX, height)
    ensures var r := MoveItem(it, width, height, paddleX, itemSpeed);
      && r.size == it.size
      && r.speedX == (if HitsSideWall(it.(x := it.x + it.speedX), width) then -it.speedX else it.speedX)
      && r.speedY == (if it.y + it.speedY <= 0.0 then -it.speedY else it.speedY)
      && 0.0 <= r.x <= width - it.size
      && r.x == Max(0.0, Min(it.x + it.speedX, width - it.size))
      && r.y == Max(it.y + it.speedY, 0.0)
  {
  }

  /**
   * What a frame does to a square that meets the paddle: it leaves upwards
   * at the current speed, resting on the paddle, so it is not on the floor;
   * its horizontal speed is at most 5 plus a share of its size, positive
   * right of the paddle's centre and negative left of it.
   */
  lemma {:induction false} MoveItemPaddleHit(it: Item, width: real, height: real, paddleX: real, itemSpeed: real)
    requires it.size <= width
    requires var moved := it.(x := it.x + it.speedX, y := it.y + it.speedY);
      OverlapsPaddle(BounceCeiling(BounceSideWalls(moved, width)), paddleX, height)
    ensures var r := MoveItem(it, width, height, paddleX, itemSpeed);
      && r.speedY == -itemSpeed
      && r.y + r.size == height - PaddleTopGap
      && !ReachesFloor(r, height)
      && 0.0 <= r.x <= width - it.size
      && r.x == Max(0.0, Min(it.x + it.speedX, width - it.size))
      && -(HitSpeedX + it.size / 24.0) <= r.speedX <= HitSpeedX + it.size / 24.0
      && (r.x + r.size / 2.0 > paddleX + PaddleWidth / 2.0 ==> r.speedX > 0.0)
      && (r.x + r.size / 2.0 < paddleX + PaddleWidth / 2.0 ==> r.speedX < 0.0)
  {
    var moved := it.(x := it.x + it.speedX, y := it.y + it.speedY);
    var c := BounceCeiling(BounceSideWalls(moved, width));
    var r := BouncePaddle(c, paddleX, height, itemSpeed);
    assert r == MoveItem(it, width, height, paddleX, itemSpeed);
    var offset := (c.x + c.size / 2.0) - (paddleX + PaddleWidth / 2.0);
    assert -(PaddleWidth / 2.0 + c.size / 2.0) <= offset <= PaddleWidth / 2.0 + c.size / 2.0;
    assert r.speedX * 60.0 == 5.0 * offset;
  }

  /**
   * The arrow keys in one frame: left (ArrowLeft or A) moves the paddle 15
   * to the left but not past 0, then right (ArrowRight or D) moves it 15 to
   * the right but not past width - 120.
   */
  function KeyedPaddle(paddleX: real, left: bool, right: bool, width: real): (r: real)
    ensures !left && !right ==> r == paddleX
    ensures left && !right ==> 0.0 <= r && (r <= paddleX || r == 0.0)
    ensures right ==> r <= width - PaddleWidth
    ensures left && !right && paddleX >= MoveSpeed ==> r == paddleX - MoveSpeed
    ensures left && !right && paddleX < MoveSpeed ==> r == 0.0
    ensures !left && right && paddleX + MoveSpeed <= width - PaddleWidth ==> r == paddleX + MoveSpeed
    ensures !left && right && paddleX + MoveSpeed > width - PaddleWidth ==> r == width - PaddleWidth
    ensures left && right && MoveSpeed <= paddleX <= width - PaddleWidth ==> r == paddleX
    ensures left && right && paddleX < MoveSpeed ==> r == Min(width - PaddleWidth, MoveSpeed)
    ensures left && right && MoveSpeed <= paddleX && paddleX > width - PaddleWidth ==> r == width - PaddleWidth
  {
    var afterLeft := if left then Max(0.0, paddleX - MoveSpeed) else paddleX;
    if right then Min(width - PaddleWidth, afterLeft + MoveSpeed) else afterLeft
  }

  /**
   * A paddle inside the area stays inside it under the keys, moves at most
   * 15 either way, and moves only in the direction of the key held.
   */
  lemma KeyedPaddleStaysInside(paddleX: real, left: bool, right: bool, width: real)
    requires 0.0 <= paddleX <= width - PaddleWidth
    ensures var r := KeyedPaddle(paddleX, left, right, width);
      && 0.0 <= r <= width - PaddleWidth
      && paddleX - MoveSpeed <= r <= paddleX + MoveSpeed
      && (left && !right ==> r <= paddleX)
      && (right && !left ==> r >= paddleX)
  {
  }

  /**
   * The paddle centred under a pointer at `pointerX` (relative to the area's
   * left edge), pulled back inside [0, width - 120].
   */
  function PaddleAt(pointerX: real, width: real): (r: real)
    ensures 0.0 <= r
    ensures width >= PaddleWidth ==> r <= width - PaddleWidth
    ensures 0.0 <= pointerX - PaddleWidth / 2.0 <= width - PaddleWidth ==> r == pointerX - PaddleWidth / 2.0
    ensures r != pointerX - PaddleWidth / 2.0 ==> r == 0.0 || r == width - PaddleWidth
    ensures pointerX - PaddleWidth / 2.0 < 0.0 ==> r == 0.0
    ensures width >= PaddleWidth && pointerX - PaddleWidth / 2.0 > width - PaddleWidth ==> r == width - PaddleWidth
    ensures width < PaddleWidth ==> r == 0.0
  {
    Max(0.0, Min(width - PaddleWidth, pointerX - PaddleWidth / 2.0))
  }

  class JugglingGame {
    var active: bool
    var currentTime: real
    var bestTime: real
    var items: seq<Item>
    var itemCount: int
    var itemSpeed: real
    var lastItemAddTime: real
    var paddleX: real
    var keys: map<string, bool>
    var isMouseOver: bool

    /** During a run, the counter shown to the player is the number of squares in play. */
    ghost predicate Valid()
      reads this
    {
      itemCount >= 1 && (active ==> |items| == itemCount)
    }

    /** A key counts as held once pressed and until released; a key never pressed is not held. */
    function Held(code: string): bool
      reads this
    {
      code in keys && keys[code]
    }

    function LeftHeld(): bool
      reads this
    {
      Held("ArrowLeft") || Held("KeyA")
    }

    function RightHeld(): bool
      reads this
    {
      Held("ArrowRight") || Held("KeyD")
    }

    /** Loading the stored best time and centring the paddle; the first run starts with InitGame. */
    constructor (savedBest: real, areaWidth: real)
      ensures Valid() && !active
      ensures bestTime == savedBest && items == [] && itemCount == 1
      ensures currentTime == 0.0 && itemSpeed == BaseSpeed && lastItemAddTime == 0.0
      ensures keys == map[] && !isMouseOver
      ensures paddleX == (areaWidth - PaddleWidth) / 2.0
    {
      active := false;
      currentTime := 0.0;
      bestTime := savedBest;
      items := [];
      itemCount := 1;
      itemSpeed := BaseSpeed;
      lastItemAddTime := 0.0;
      keys := map[];
      isMouseOver := false;
      paddleX := (areaWidth - PaddleWidth) / 2.0;
    }

    /** Keeps the run's time as the best one when it is strictly longer. */
    method SaveBestTime()
      modifies this`bestTime
      ensures bestTime == NewBestTime(old(bestTime), currentTime)
    {
      if currentTime > bestTime {
        bestTime := currentTime;
      }
    }

    /** Ends the run, saving the best time first. */
    method EndGame()
      modifies this`bestTime, this`active
      ensures !active
      ensures bestTime == NewBestTime(old(bestTime), currentTime)
    {
      SaveBestTime();
      active := false;
    }

    /**
     * Start or restart: the clock, the keys and the pointer are reset, the
     * paddle is centred, and the run starts with one square at the base speed.
     */
    method InitGame(areaWidth: real, first: Spawn)
      requires ValidSpawn(first)
      modifies this
      ensures Valid() && active
      ensures currentTime == 0.0 && lastItemAddTime == 0.0
      ensures items == [NewItem(first, BaseSpeed)] && itemCount == 1 && itemSpeed == BaseSpeed
      ensures keys == map[] && !isMouseOver
      ensures paddleX == (areaWidth - PaddleWidth) / 2.0
      ensures bestTime == old(bestTime)
    {
      active := true;
      currentTime := 0.0;
      items := [];
      itemCount := 1;
      itemSpeed := BaseSpeed;
      lastItemAddTime := 0.0;
      keys := map[];
      isMouseOver := false;
      paddleX := (areaWidth - PaddleWidth) / 2.0;
      items := items + [NewItem(first, itemSpeed)];
    }

    /** The paddle's move for the keys held in this frame; nothing moves when the run is over. */
    method MovePaddle(areaWidth: real)
      modifies this`paddleX
      ensures !active ==> paddleX == old(paddleX)
      ensures active ==> paddleX == KeyedPaddle(old(paddleX), LeftHeld(), RightHeld(), areaWidth)
    {
      if !active {
        return;
      }
      if Held("ArrowLeft") || Held("KeyA") {
        paddleX := Max(0.0, paddleX - MoveSpeed);
      }
      if Held("ArrowRight") || Held("KeyD") {
        paddleX := Min(areaWidth - PaddleWidth, paddleX + MoveSpeed);
      }
    }

    /** Moves every square by one frame, in place, in order. */
    method MoveItems(areaWidth: real, areaHeight: real)
      modifies this`items
      ensures items == MoveAll(old(items), areaWidth, areaHeight, paddleX, itemSpeed)
    {
      var i := 0;
      while i < |items|
        invariant 0 <= i <= |items| == |old(items)|
        invariant forall j :: 0 <= j < i ==> items[j] == MoveItem(old(items)[j], areaWidth, areaHeight, paddleX, itemSpeed)
        invariant forall j :: i <= j < |items| ==> items[j] == old(items)[j]
      {
        items := items[i := MoveItem(items[i], areaWidth, areaHeight, paddleX, itemSpeed)];
        i := i + 1;
      }
    }

    /** Looks for a square on the floor, stopping at the first one, and ends the run if there is one. */
    method CheckGameOver(areaHeight: real)
      modifies this`bestTime, this`active
      ensures AnyReachesFloor(items, areaHeight) ==>
        !active && bestTime == NewBestTime(old(bestTime), currentTime)
      ensures !AnyReachesFloor(items, areaHeight) ==> active == old(active) && bestTime == old(bestTime)
    {
      var i := 0;
      while i < |items|
        invariant 0 <= i <= |items|
        invariant forall j :: 0 <= j < i ==> !ReachesFloor(items[j], areaHeight)
      {
        if items[i].y + items[i].size >= areaHeight {
          EndGame();
          return;
        }
        i := i + 1;
      }
    }

    /**
     * One frame of the loop at `elapsed` seconds into the run. Nothing
     * happens when the run is over. Otherwise the clock advances; if more
     * than five seconds have passed since the last new square, one more
     * square (drawn by `spawn`, at the speed before this frame) is added; the
     * speed becomes 2 + 0.05 per second; then the paddle, the squares and
     * the floor check follow.
     */
    method Frame(elapsed: real, areaWidth: real, areaHeight: real, spawn: Spawn)
      requires Valid() && ValidSpawn(spawn)
      modifies this`currentTime, this`itemCount, this`lastItemAddTime, this`items, this`itemSpeed,
        this`paddleX, this`bestTime, this`active
      ensures Valid()
      ensures !old(active) ==> unchanged(this)
      ensures old(active) ==>
        var spawned := elapsed - old(lastItemAddTime) > SpawnInterval;
        var inPlay := old(items) + if spawned then [NewItem(spawn, old(itemSpeed))] else [];
        && currentTime == elapsed
        && itemCount == old(itemCount) + (if spawned then 1 else 0)
        && lastItemAddTime == (if spawned then elapsed else old(lastItemAddTime))
        && itemSpeed == BaseSpeed + elapsed * SpeedRamp
        && paddleX == KeyedPaddle(old(paddleX), LeftHeld(), RightHeld(), areaWidth)
        && items == MoveAll(inPlay, areaWidth, areaHeight, paddleX, itemSpeed)
        && active == !AnyReachesFloor(items, areaHeight)
        && bestTime == if active then old(bestTime) else NewBestTime(old(bestTime), elapsed)
    {
      if !active {
        return;
      }
      currentTime := elapsed;
      if currentTime - lastItemAddTime > SpawnInterval {
        itemCount := itemCount + 1;
        lastItemAddTime := currentTime;
        items := items + [NewItem(spawn, itemSpeed)];
      }
      itemSpeed := BaseSpeed + currentTime * SpeedRamp;
      MovePaddle(areaWidth);
      MoveItems(areaWidth, areaHeight);
      CheckGameOver(areaHeight);
    }

    /** A tap on the square at `index` throws it up; a tap on anything else, or after the run, does nothing. */
    method ClickItem(index: int)
      modifies this`items
      ensures old(Valid()) ==> Valid()
      ensures |items| == |old(items)|
      ensures active && 0 <= index < |old(items)| ==>
        items == old(items)[index := old(items)[index].(speedY := -itemSpeed * JumpFactor)]
      ensures !(active && 0 <= index < |old(items)|) ==> items == old(items)
    {
      if !active {
        return;
      }
      if 0 <= index < |items| {
        items := items[index := items[index].(speedY := -itemSpeed * JumpFactor)];
      }
    }

    /** The space bar throws every square up; nothing happens after the run. */
    method JumpAllItems()
      modifies this`items
      ensures old(Valid()) ==> Valid()
      ensures |items| == |old(items)|
      ensures !active ==> items == old(items)
      ensures active ==> forall j :: 0 <= j < |items| ==> items[j] == old(items)[j].(speedY := -itemSpeed * JumpFactor)
    {
      if !active {
        return;
      }
      var i := 0;
      while i < |items|
        invariant 0 <= i <= |items| == |old(items)|
        invariant forall j :: 0 <= j < i ==> items[j] == old(items)[j].(speedY := -itemSpeed * JumpFactor)
        invariant forall j :: i <= j < |items| ==> items[j] == old(items)[j]
      {
        items := items[i := items[i].(speedY := -itemSpeed * JumpFactor)];
        i := i + 1;
      }
    }

    /** A key goes down: it is recorded as held (during a run or not), and Space throws every square up. */
    method KeyDown(code: string)
      modifies this`keys, this`items
      ensures old(Valid()) ==> Valid()
      ensures keys == old(keys)[code := true]
      ensures code != "Space" || !active ==> items == old(items)
      ensures code == "Space" && active ==>
        |items| == |old(items)| &&
        forall j :: 0 <= j < |items| ==> items[j] == old(items)[j].(speedY := -itemSpeed * JumpFactor)
    {
      keys := keys[code := true];
      if code == "Space" {
        JumpAllItems();
      }
    }

    /** A key goes up: it is no longer held. */
    method KeyUp(code: string)
      modifies this`keys
      ensures keys == old(keys)[code := false]
    {
      keys := keys[code := false];
    }

    method MouseEnter()
      modifies this`isMouseOver
      ensures isMouseOver
    {
      isMouseOver := true;
    }

    method MouseLeave()
      modifies this`isMouseOver
      ensures !isMouseOver
    {
      isMouseOver := false;
    }

    /** The mouse moves the paddle under it, only during a run and while the pointer is over the area. */
    method MouseMove(mouseX: real, areaWidth: real)
      modifies this`paddleX
      ensures active && isMouseOver ==> paddleX == PaddleAt(mouseX, areaWidth)
      ensures !(active && isMouseOver) ==> paddleX == old(paddleX)
    {
      if !active || !isMouseOver {
        return;
      }
      paddleX := PaddleAt(mouseX, areaWidth);
    }

    /** A touch moves the paddle under the finger during a run. */
    method TouchMove(touchX: real, areaWidth: real)
      modifies this`paddleX
      ensures active ==> paddleX == PaddleAt(touchX, areaWidth)
      ensures !active ==> paddleX == old(paddleX)
    {
      if !active {
        return;
      }
      paddleX := PaddleAt(touchX, areaWidth);
    }
  }
}
