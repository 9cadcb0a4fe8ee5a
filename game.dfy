/**
 * The player and the keyboard handlers of the game script: the player's
 * pose and intents, the per-frame update that turns and moves it subject to
 * the level's wall query, and the arrow-key handlers that set the intents.
 *
 * `Math.cos` and `Math.sin` of the updated facing angle are not computed
 * here: each frame receives them as the parameters `c` and `s`.
 */
module Game {
  import opened Level

  /** `Math.PI`, as the decimal JavaScript prints for it. */
  const PI: real := 3.141592653589793

  const PLAYER_RADIUS: real := 3.0
  const MOVE_SPEED: real := 2.0
  const ROTATION_SPEED: real := 2.0 * (PI / 180.0)

  /** The keys the handlers distinguish; every other key code is OtherKey. */
  datatype Key = UpArrow | DownArrow | RightArrow | LeftArrow | OtherKey

  /** The value of every field of a player object. */
  datatype PlayerState = PlayerState(
    x: real, y: real,
    radius: real,
    turnDirection: int, walkDirection: int,
    rotationAngle: real,
    moveSpeed: real, rotationSpeed: real)

  /** An intent: -1 (backward / left), 0 (none) or 1 (forward / right). */
  predicate IsIntent(d: int) {
    d == -1 || d == 0 || d == 1
  }

  /** The player's invariant: intents are -1, 0 or 1, and the constants keep their values. */
  predicate Valid(p: PlayerState) {
    && IsIntent(p.turnDirection) && IsIntent(p.walkDirection)
    && p.radius == PLAYER_RADIUS && p.moveSpeed == MOVE_SPEED && p.rotationSpeed == ROTATION_SPEED
  }

  /** The player stands on open floor. */
  predicate Clear(p: PlayerState) {
    !HasWallAt(p.x, p.y)
  }

  /** A new player at (x, y): no intents, facing down the screen (angle pi/2). */
  function Initial(x: real, y: real): (p: PlayerState)
    ensures Valid(p) && p.x == x && p.y == y
    ensures p.walkDirection == 0 && p.turnDirection == 0
  {
    PlayerState(x, y, PLAYER_RADIUS, 0, 0, PI / 2.0, MOVE_SPEED, ROTATION_SPEED)
  }

  /** The game's player, created at the centre of the window. */
  function Spawn(): (p: PlayerState)
    ensures Valid(p) && Clear(p)
  {
    var p := Initial(WINDOW_WIDTH as real / 2.0, WINDOW_HEIGHT as real / 2.0);
    HasWallAtInsideTile(5, 7, p.x, p.y);
    p
  }

  /** The position a frame tries to move to, given cos and sin of the new angle. */
  function Candidate(p: PlayerState, c: real, s: real): (real, real) {
    var moveStep := p.walkDirection as real * p.moveSpeed;
    (p.x + c * moveStep, p.y + s * moveStep)
  }

  /**
   * One frame of `update()`: turn by the turn intent, then move by the walk
   * intent along (c, s) unless the target point is in a wall, in which case
   * the player does not move at all.
   */
  function Step(p: PlayerState, c: real, s: real): (r: PlayerState)
    ensures r.rotationAngle == p.rotationAngle + p.turnDirection as real * p.rotationSpeed
    ensures var (nx, ny) := Candidate(p, c, s);
      if HasWallAt(nx, ny) then r.x == p.x && r.y == p.y else r.x == nx && r.y == ny
    ensures r.walkDirection == p.walkDirection && r.turnDirection == p.turnDirection
    ensures r.moveSpeed == p.moveSpeed && r.rotationSpeed == p.rotationSpeed && r.radius == p.radius
    ensures Valid(p) ==> Valid(r)
    ensures Clear(p) ==> Clear(r)
  {
    var turned := p.(rotationAngle := p.rotationAngle + p.turnDirection as real * p.rotationSpeed);
    var (nx, ny) := Candidate(p, c, s);
    if !HasWallAt(nx, ny) then turned.(x := nx, y := ny) else turned
  }

  /** The square of the distance between the positions of two player states. */
  function SquaredDistance(p: PlayerState, q: PlayerState): real {
    (q.x - p.x) * (q.x - p.x) + (q.y - p.y) * (q.y - p.y)
  }

  /**
   * With a direction of length at most 1, a frame moves the player by at
   * most its move speed.
   */
  lemma StepMovesAtMostMoveSpeed(p: PlayerState, c: real, s: real)
    requires Valid(p)
    requires c * c + s * s <= 1.0
    ensures SquaredDistance(p, Step(p, c, s)) <= p.moveSpeed * p.moveSpeed
  {
    var r := Step(p, c, s);
    var k := p.walkDirection as real * p.moveSpeed;
    assert (r.x == p.x && r.y == p.y) || (r.x == p.x + c * k && r.y == p.y + s * k);
    assert k * k <= p.moveSpeed * p.moveSpeed by {
      assert k == 0.0 || k == MOVE_SPEED || k == -MOVE_SPEED;
    }
    MoveAlongDirectionBound(p, r, c, s, k);
  }

  /** Staying put, or moving by k along a direction of length at most 1, covers a squared distance of at most k * k. */
  lemma MoveAlongDirectionBound(p: PlayerState, r: PlayerState, c: real, s: real, k: real)
    requires c * c + s * s <= 1.0
    requires (r.x == p.x && r.y == p.y) || (r.x == p.x + c * k && r.y == p.y + s * k)
    ensures SquaredDistance(p, r) <= k * k
  {
    if r.x != p.x || r.y != p.y {
      assert SquaredDistance(p, r) == (c * c + s * s) * (k * k);
    }
  }

  /**
   * In a frame from open floor with a direction whose components lie in
   * [-1, 1], the source's own `hasWallAt` returns a value (it never throws)
   * and that value is the one the model uses.
   */
  lemma StepQueryIsSafe(p: PlayerState, c: real, s: real)
    requires Valid(p) && Clear(p)
    requires -1.0 <= c <= 1.0 && -1.0 <= s <= 1.0
    ensures var (nx, ny) := Candidate(p, c, s);
      HasWallAtAsWritten(nx, ny) == Returned(HasWallAt(nx, ny))
  {
    var (nx, ny) := Candidate(p, c, s);
    var dx, dy := nx - p.x, ny - p.y;
    if p.walkDirection == 0 {
      assert dx == 0.0 && dy == 0.0;
    } else if p.walkDirection == 1 {
      assert dx == 2.0 * c && dy == 2.0 * s;
    } else {
      assert dx == -2.0 * c && dy == -2.0 * s;
    }
    SmallStepFromOpenPointIsSafe(p.x, p.y, dx, dy);
  }

  /** `keyPressed`: an arrow key sets its intent to 1 or -1; any other key does nothing. */
  function Pressed(p: PlayerState, k: Key): (r: PlayerState)
    ensures r.x == p.x && r.y == p.y && r.rotationAngle == p.rotationAngle
    ensures r.moveSpeed == p.moveSpeed && r.rotationSpeed == p.rotationSpeed && r.radius == p.radius
    ensures r.walkDirection == (if k == UpArrow then 1 else if k == DownArrow then -1 else p.walkDirection)
    ensures r.turnDirection == (if k == RightArrow then 1 else if k == LeftArrow then -1 else p.turnDirection)
    ensures Valid(p) ==> Valid(r)
  {
    match k
    case UpArrow => p.(walkDirection := 1)
    case DownArrow => p.(walkDirection := -1)
    case RightArrow => p.(turnDirection := 1)
    case LeftArrow => p.(turnDirection := -1)
    case OtherKey => p
  }

  /**
   * `keyReleased`: releasing either walk key stops walking and releasing
   * either turn key stops turning, whichever key of the pair set the intent.
   */
  function Released(p: PlayerState, k: Key): (r: PlayerState)
    ensures r.x == p.x && r.y == p.y && r.rotationAngle == p.rotationAngle
    ensures r.moveSpeed == p.moveSpeed && r.rotationSpeed == p.rotationSpeed && r.radius == p.radius
    ensures r.walkDirection == (if k == UpArrow || k == DownArrow then 0 else p.walkDirection)
    ensures r.turnDirection == (if k == RightArrow || k == LeftArrow then 0 else p.turnDirection)
    ensures Valid(p) ==> Valid(r)
  {
    match k
    case UpArrow | DownArrow => p.(walkDirection := 0)
    case RightArrow | LeftArrow => p.(turnDirection := 0)
    case OtherKey => p
  }

  /** Pressing and releasing a key from rest leaves the player as it was. */
  lemma PressThenReleaseIsIdentity(p: PlayerState, k: Key)
    requires p.walkDirection == 0 && p.turnDirection == 0
    ensures Released(Pressed(p, k), k) == p
  {
  }

  /** What the host delivers to the game: a key event, or a frame with cos and sin of the new angle. */
  datatype Event = Press(key: Key) | Release(key: Key) | Frame(c: real, s: real)

  function Apply(p: PlayerState, e: Event): PlayerState {
    match e
    case Press(k) => Pressed(p, k)
    case Release(k) => Released(p, k)
    case Frame(c, s) => Step(p, c, s)
  }

  /** The player after a sequence of events, in order. */
  function Run(p: PlayerState, events: seq<Event>): PlayerState
    decreases |events|
  {
    if events == [] then p else Run(Apply(p, events[0]), events[1..])
  }

  /** Whatever keys are pressed and whatever directions the frames take, a valid player on open floor stays valid and on open floor. */
  lemma {:induction false} RunKeepsPlayerOnOpenFloor(p: PlayerState, events: seq<Event>)
    requires Valid(p) && Clear(p)
    ensures Valid(Run(p, events)) && Clear(Run(p, events))
    decreases |events|
  {
    if events != [] {
      RunKeepsPlayerOnOpenFloor(Apply(p, events[0]), events[1..]);
    }
  }

  /** The game's own player never stands in a wall, whatever happens after it spawns. */
  lemma {:induction false} SpawnedPlayerNeverEntersWall(events: seq<Event>)
    ensures Valid(Run(Spawn(), events)) && Clear(Run(Spawn(), events))
  {
    RunKeepsPlayerOnOpenFloor(Spawn(), events);
  }

  /** A player object; its fields are updated in place by `Update` and the key handlers. */
  class Player {
    var x: real
    var y: real
    var radius: real
    var turnDirection: int
    var walkDirection: int
    var rotationAngle: real
    var moveSpeed: real
    var rotationSpeed: real

    /** The value of all fields. */
    function State(): PlayerState
      reads this
    {
      PlayerState(x, y, radius, turnDirection, walkDirection, rotationAngle, moveSpeed, rotationSpeed)
    }

    constructor (x0: real, y0: real)
      ensures State() == Initial(x0, y0)
    {
      x := x0;
      y := y0;
      radius := PLAYER_RADIUS;
      turnDirection := 0;
      walkDirection := 0;
      rotationAngle := PI / 2.0;
      moveSpeed := MOVE_SPEED;
      rotationSpeed := ROTATION_SPEED;
    }

    /** `update()`, where c and s are cos and sin of the updated rotation angle. */
    method Update(c: real, s: real)
      modifies this
      ensures State() == Step(old(State()), c, s)
      ensures Valid(old(State())) ==> Valid(State())
      ensures Clear(old(State())) ==> Clear(State())
    {
      rotationAngle := rotationAngle + turnDirection as real * rotationSpeed;
      var moveStep := walkDirection as real * moveSpeed;
      var newX := x + c * moveStep;
      var newY := y + s * moveStep;
      ghost var p := old(State());
      assert p.x == x && p.y == y && p.walkDirection == walkDirection && p.moveSpeed == moveSpeed;
      assert moveStep == p.walkDirection as real * p.moveSpeed;
      assert newX == Candidate(p, c, s).0;
      assert newY == Candidate(p, c, s).1;
      if !HasWallAt(newX, newY) {
        x := newX;
        y := newY;
      }
    }
  }

  /** The global player, created at the centre of the window. */
  method NewGamePlayer() returns (player: Player)
    ensures fresh(player) && player.State() == Spawn()
  {
    player := new Player(WINDOW_WIDTH as real / 2.0, WINDOW_HEIGHT as real / 2.0);
  }

  /** `keyPressed()` on the global player. */
  method KeyPressed(player: Player, k: Key)
    modifies player
    ensures player.State() == Pressed(old(player.State()), k)
  {
    match k {
      case UpArrow => player.walkDirection := 1;
      case DownArrow => player.walkDirection := -1;
      case RightArrow => player.turnDirection := 1;
      case LeftArrow => player.turnDirection := -1;
      case OtherKey =>
    }
  }

  /** `keyReleased()` on the global player. */
  method KeyReleased(player: Player, k: Key)
    modifies player
    ensures player.State() == Released(old(player.State()), k)
  {
    match k {
      case UpArrow => player.walkDirection := 0;
      case DownArrow => player.walkDirection := 0;
      case RightArrow => player.turnDirection := 0;
      case LeftArrow => player.turnDirection := 0;
      case OtherKey =>
    }
  }
}
