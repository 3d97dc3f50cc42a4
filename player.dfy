/** The player: held-key latches, the run modifier, the twelve animation states and the
    animation clock. The pure functions below are the state machine; class Player runs it
    on mutable fields and is proved to follow it step by step. */
module Motion {
  import opened Config
  import opened JavaMath
  import opened Collision
  import opened Hitbox
  import opened TileSettings

  /** AWT key codes of the keys the player reacts to. */
  const VkSpace: int := 32
  const VkLeft: int := 37
  const VkUp: int := 38
  const VkRight: int := 39
  const VkDown: int := 40

  datatype Mode = Idle | Walking | Running
  datatype Direction = Up | Down | Left | Right

  /** One of the twelve animation states, e.g. walking facing left ("walkingLeft"). */
  datatype State = State(mode: Mode, facing: Direction)

  function ModeName(m: Mode): string {
    match m
    case Idle => "idle"
    case Walking => "walking"
    case Running => "running"
  }

  function DirectionName(d: Direction): string {
    match d
    case Up => "Up"
    case Down => "Down"
    case Left => "Left"
    case Right => "Right"
  }

  /** The key of a state in the animation table: its mode followed by its direction. */
  function StateName(s: State): string {
    ModeName(s.mode) + DirectionName(s.facing)
  }

  /** Different states have different names, so comparing names (as the game does) is
      comparing states. */
  lemma StateNameInjective(s: State, t: State)
    requires StateName(s) == StateName(t)
    ensures s == t
  {
    var n, m := StateName(s), StateName(t);
    assert n[0] == ModeName(s.mode)[0] && m[0] == ModeName(t.mode)[0];
    assert s.mode == t.mode;
    var k := |ModeName(s.mode)|;
    assert n[k] == DirectionName(s.facing)[0] && m[k] == DirectionName(t.facing)[0];
  }

  /** Number of frames in each animation: 4 idle, 6 walking, 8 running. */
  function FrameCount(m: Mode): (n: int)
    ensures 0 < n <= 8
    ensures m == Idle ==> n == 4
    ensures m == Walking ==> n == 6
    ensures m == Running ==> n == 8
  {
    match m
    case Idle => 4
    case Walking => 6
    case Running => 8
  }

  /** Ticks per animation frame: running when moving with the run modifier, walking when
      moving, idle otherwise. */
  function AnimationPeriod(isMoving: bool, isRunning: bool): (p: int)
    ensures 0 < p <= IdleAnimationSpeed
    ensures !isMoving ==> p == IdleAnimationSpeed
    ensures isMoving ==> p == (if isRunning then RunningAnimationSpeed else WalkingAnimationSpeed)
  {
    if isMoving then (if isRunning then RunningAnimationSpeed else WalkingAnimationSpeed)
    else IdleAnimationSpeed
  }

  /** The fields `state`, `animationFrame` and `animationCounter`. */
  datatype Animation = Animation(state: State, frame: int, counter: int)

  /** The fields `spacePressed`, `upPressed`, `downPressed`, `leftPressed` and `rightPressed`. */
  datatype Keys = Keys(space: bool, up: bool, down: bool, left: bool, right: bool)

  /** Everything the player's key and tick handlers read and write. */
  datatype Motion = Motion(x: int, y: int, animation: Animation, isRunning: bool,
                           isMoving: bool, keys: Keys, last: Direction)

  const NoKeys := Keys(false, false, false, false, false)

  /** The player as constructed: idle facing down, no key held, animation at its start. */
  function Initial(startX: int, startY: int): (m: Motion)
    ensures m.x == startX && m.y == startY && m.animation.state == State(Idle, Down)
    ensures AnimationOk(m.animation) && !m.isMoving && !m.isRunning
    ensures !m.keys.up && !m.keys.down && !m.keys.left && !m.keys.right && !m.keys.space
  {
    Motion(startX, startY, Animation(State(Idle, Down), 0, 0), false, false, NoKeys, Down)
  }

  /** The animation frame is a valid index of the current animation and the counter is below
      the longest period. */
  predicate AnimationOk(a: Animation) {
    0 <= a.frame < FrameCount(a.state.mode) && 0 <= a.counter < IdleAnimationSpeed
  }

  /** Switching to a state restarts its animation, unless it already is the current state. */
  function WithState(a: Animation, s: State): (r: Animation)
    ensures r.state == s
    ensures s != a.state ==> r.frame == 0 && r.counter == 0
    ensures s == a.state ==> r == a
    ensures AnimationOk(a) ==> AnimationOk(r)
  {
    if s != a.state then Animation(s, 0, 0) else a
  }

  /** One animation tick: the counter counts up to the period, then wraps to 0 and the frame
      moves on, wrapping at the animation's length. */
  function Tick(a: Animation, isMoving: bool, isRunning: bool): (r: Animation)
    ensures r.state == a.state
    ensures 0 <= a.counter ==> 0 <= r.counter < AnimationPeriod(isMoving, isRunning)
    ensures 0 <= a.counter ==>
      ((r.counter == 0) == (a.counter + 1 >= AnimationPeriod(isMoving, isRunning)))
    ensures r.counter != 0 ==> r.frame == a.frame && r.counter == a.counter + 1
    ensures r.counter == 0 && 0 <= a.counter && 0 <= a.frame ==> r.frame == (a.frame + 1) % FrameCount(a.state.mode)
    ensures AnimationOk(a) ==> AnimationOk(r)
  {
    var counter := a.counter + 1;
    if counter >= AnimationPeriod(isMoving, isRunning) then
      a.(counter := 0, frame := Rem(a.frame + 1, FrameCount(a.state.mode)))
    else
      a.(counter := counter)
  }

  /** The state for the given latches: the first held direction in the order Up, Down, Left,
      Right, running or walking by the run flag; idle facing `last` when none is held. */
  function DetermineState(up: bool, down: bool, left: bool, right: bool,
                          isRunning: bool, last: Direction): State
  {
    var moving := if isRunning then Running else Walking;
    if up then State(moving, Up)
    else if down then State(moving, Down)
    else if left then State(moving, Left)
    else if right then State(moving, Right)
    else State(Idle, last)
  }

  /** DetermineState's priority: a direction is faced exactly when it is held and no
      direction before it in the order Up, Down, Left, Right is, or nothing is held and it
      was the last direction released; the mode follows the run flag whenever something is
      held. */
  lemma DetermineStatePriority(up: bool, down: bool, left: bool, right: bool,
                               isRunning: bool, last: Direction)
    ensures var s := DetermineState(up, down, left, right, isRunning, last);
      && (up || down || left || right ==> s.mode == (if isRunning then Running else Walking))
      && (!(up || down || left || right) ==> s == State(Idle, last))
      && (s.facing == Up <==> (up || (!down && !left && !right && last == Up)))
      && (s.facing == Down <==> (!up && (down || (!left && !right && last == Down))))
      && (s.facing == Left <==> (!up && !down && (left || (!right && last == Left))))
      && (s.facing == Right <==> (!up && !down && !left && (right || last == Right)))
  {
  }

  /** Pixels per key event: decided by the run flag as it was before the event. */
  function Step(isRunning: bool): int {
    if isRunning then RunSpeed else WalkSpeed
  }

  /** A latch after the opposing-key rule: when a key and its opposite are both held, or both
      released, neither counts as held. */
  function Latched(key: bool, opposite: bool): bool {
    if key == opposite then false else key
  }

  /** The latches after pressing `keyCode`: the key is latched, and a pair of opposite latches
      that agree is cleared. The Space latch is not touched here. */
  function PressKeys(k: Keys, keyCode: int): (r: Keys)
    ensures r.up == ((k.up || keyCode == VkUp) && !(k.down || keyCode == VkDown))
    ensures r.down == ((k.down || keyCode == VkDown) && !(k.up || keyCode == VkUp))
    ensures r.left == ((k.left || keyCode == VkLeft) && !(k.right || keyCode == VkRight))
    ensures r.right == ((k.right || keyCode == VkRight) && !(k.left || keyCode == VkLeft))
    ensures !(r.up && r.down) && !(r.left && r.right)
    ensures r.space == k.space
  {
    k.(up := Latched(k.up || keyCode == VkUp, k.down || keyCode == VkDown),
       down := Latched(k.down || keyCode == VkDown, k.up || keyCode == VkUp),
       left := Latched(k.left || keyCode == VkLeft, k.right || keyCode == VkRight),
       right := Latched(k.right || keyCode == VkRight, k.left || keyCode == VkLeft))
  }

  /** Some direction is latched. */
  predicate AnyDirection(k: Keys) {
    k.up || k.down || k.left || k.right
  }

  /** A key press: latch the key, cancel a pair of opposite latches that agree, move by one
      step per remaining latch, take the run flag from Space, and pick the new state. The
      moved position is kept whatever the collision check answers. */
  function Press(m: Motion, keyCode: int): (r: Motion)
    ensures r.keys == PressKeys(m.keys, keyCode).(space := m.keys.space || keyCode == VkSpace)
    ensures r.isRunning == r.keys.space
    ensures r.x == m.x + (if r.keys.right then Step(m.isRunning)
                          else if r.keys.left then -Step(m.isRunning) else 0)
    ensures r.y == m.y + (if r.keys.down then Step(m.isRunning)
                          else if r.keys.up then -Step(m.isRunning) else 0)
    ensures r.isMoving == AnyDirection(r.keys)
    ensures r.animation.state ==
      DetermineState(r.keys.up, r.keys.down, r.keys.left, r.keys.right, r.isRunning, m.last)
    ensures r.last == m.last
    ensures r.animation.state == m.animation.state ==> r.animation == m.animation
    ensures r.animation.state != m.animation.state ==>
      r.animation.frame == 0 && r.animation.counter == 0
    ensures AnimationOk(m.animation) ==> AnimationOk(r.animation)
  {
    var moveAmount := Step(m.isRunning);
    var k := PressKeys(m.keys, keyCode).(space := m.keys.space || keyCode == VkSpace);
    var y := m.y - (if k.up then moveAmount else 0) + (if k.down then moveAmount else 0);
    var x := m.x - (if k.left then moveAmount else 0) + (if k.right then moveAmount else 0);
    var state := DetermineState(k.up, k.down, k.left, k.right, k.space, m.last);
    Motion(x, y, WithState(m.animation, state), k.space, AnyDirection(k), k, m.last)
  }

  /** A key release: Space drops the run modifier; a direction drops its latch and becomes the
      facing direction; when no latch is left the player goes idle facing it. */
  function Release(m: Motion, keyCode: int): (r: Motion)
    ensures keyCode == VkSpace ==>
      !r.keys.space && !r.isRunning && r.keys == m.keys.(space := false) && r.last == m.last
    ensures keyCode != VkSpace ==>
      r.keys.space == m.keys.space && r.isRunning == m.isRunning
    ensures r.keys.up == (m.keys.up && keyCode != VkUp)
    ensures r.keys.down == (m.keys.down && keyCode != VkDown)
    ensures r.keys.left == (m.keys.left && keyCode != VkLeft)
    ensures r.keys.right == (m.keys.right && keyCode != VkRight)
    ensures r.last == (if keyCode == VkUp then Up else if keyCode == VkDown then Down
                       else if keyCode == VkLeft then Left else if keyCode == VkRight then Right
                       else m.last)
    ensures r.isMoving == AnyDirection(r.keys)
    ensures !r.isMoving ==> r.animation.state == State(Idle, r.last)
    ensures !r.isMoving ==> r.animation == WithState(m.animation, State(Idle, r.last))
    ensures r.isMoving ==> r.animation == m.animation
    ensures r.x == m.x && r.y == m.y
    ensures AnimationOk(m.animation) ==> AnimationOk(r.animation)
  {
    var m1 :=
      if keyCode == VkSpace then m.(keys := m.keys.(space := false), isRunning := false)
      else if keyCode == VkUp then m.(keys := m.keys.(up := false), last := Up)
      else if keyCode == VkDown then m.(keys := m.keys.(down := false), last := Down)
      else if keyCode == VkLeft then m.(keys := m.keys.(left := false), last := Left)
      else if keyCode == VkRight then m.(keys := m.keys.(right := false), last := Right)
      else m;
    var m2 := m1.(isMoving := AnyDirection(m1.keys));
    if !m2.isMoving then m2.(animation := WithState(m2.animation, State(Idle, m2.last)))
    else m2
  }

  /** Press Up, press Left, release Left, release Up, starting with no key held: the player
      ends idle facing up, where it last moved. */
  lemma UpLeftScenario(m: Motion)
    requires !AnyDirection(m.keys)
    ensures Release(Release(Press(Press(m, VkUp), VkLeft), VkLeft), VkUp).animation.state
            == State(Idle, Up)
    ensures !Release(Release(Press(Press(m, VkUp), VkLeft), VkLeft), VkUp).isMoving
  {
    var m1 := Press(m, VkUp);
    assert m1.keys.up && !m1.keys.down && !m1.keys.left && !m1.keys.right;
    var m2 := Press(m1, VkLeft);
    assert m2.keys.up && m2.keys.left && !m2.keys.down && !m2.keys.right;
    var m3 := Release(m2, VkLeft);
    assert m3.keys.up && !m3.keys.left && !m3.keys.down && !m3.keys.right;
  }

  /** Pressing both keys of an axis, in either order, holds neither. */
  lemma OppositeKeysCancel(m: Motion)
    requires !m.keys.up && !m.keys.down
    ensures var r := Press(Press(m, VkUp), VkDown); !r.keys.up && !r.keys.down
    ensures var r := Press(Press(m, VkDown), VkUp); !r.keys.up && !r.keys.down
    ensures Press(Press(m, VkUp), VkDown).y == Press(m, VkUp).y
  {
  }

  /** A key press as evidently intended: the same as Press, except that a move the collision
      check refuses leaves the player where it was. */
  function GuardedPress(m: Motion, keyCode: int, allowed: bool): Motion
  {
    var r := Press(m, keyCode);
    if allowed then r else r.(x := m.x, y := m.y)
  }

  /** The collision check's verdict on the position a key press moves to. */
  function PressAllowed(m: Motion, keyCode: int, tiles: Grid, camX: int, camY: int,
                        screenWidth: int, screenHeight: int): bool
  {
    var r := Press(m, keyCode);
    Resolve(tiles, camX, camY, screenWidth, screenHeight, r.x, r.y).canMove
  }

  /** The guarded press differs from Press only in the position, and it moves the player only
      to a position the collision check accepts; so a player on the screen stays on it. */
  lemma GuardedPressAccepted(m: Motion, keyCode: int, tiles: Grid, camX: int, camY: int,
                             screenWidth: int, screenHeight: int)
    ensures var g := GuardedPress(m, keyCode,
                                  PressAllowed(m, keyCode, tiles, camX, camY, screenWidth, screenHeight));
      var p := Press(m, keyCode);
      && g.(x := p.x, y := p.y) == p
      && ((g.x == p.x && g.y == p.y) <==>
          (Resolve(tiles, camX, camY, screenWidth, screenHeight, p.x, p.y).canMove ||
           (p.x == m.x && p.y == m.y)))
      && (g.x != m.x || g.y != m.y ==>
            Resolve(tiles, camX, camY, screenWidth, screenHeight, g.x, g.y).canMove)
      && (InsideScreen(m.x, m.y, screenWidth, screenHeight) ==>
            InsideScreen(g.x, g.y, screenWidth, screenHeight))
  {
    var p := Press(m, keyCode);
    ResolveRefusesIff(tiles, camX, camY, screenWidth, screenHeight, p.x, p.y);
  }

  /** As written, a refused move is kept: a walking player at the left screen edge who presses
      Left ends two pixels off the screen, although the collision check refuses that
      position. */
  lemma PressKeepsRefusedMove(m: Motion, tiles: Grid, camX: int, camY: int,
                              screenWidth: int, screenHeight: int)
    requires m.x == 0 && 0 <= m.y && m.y + PlayerSize <= screenHeight
    requires !m.isRunning && !AnyDirection(m.keys)
    ensures var p := Press(m, VkLeft);
      && p.x == -2 && p.y == m.y
      && !Resolve(tiles, camX, camY, screenWidth, screenHeight, p.x, p.y).canMove
      && GuardedPress(m, VkLeft,
                      PressAllowed(m, VkLeft, tiles, camX, camY, screenWidth, screenHeight)).x == 0
  {
  }

  /** The player object. The two collaborators are fixed at construction. The thirteen
      fields of the game are grouped as the datatypes above say: `animation` holds the state
      and the animation clock, `keys` the five key latches. */
  class Player {
    const tileSetting: TileSetting
    const hitboxData: HitboxData
    var x: int
    var y: int
    var animation: Animation
    var isRunning: bool
    var isMoving: bool
    var keys: Keys
    var lastPressedDirection: Direction

    /** The player's fields as one value of the state machine. */
    function Snapshot(): Motion
      reads this
    {
      Motion(x, y, animation, isRunning, isMoving, keys, lastPressedDirection)
    }

    ghost predicate Valid()
      reads this, tileSetting, tileSetting.collidableTiles
    {
      tileSetting.Valid()
    }

    /** The hitbox collaborator holds the player hitbox around (px, py) and its tile fields
        are as they were. */
    ghost predicate HitboxAround(px: int, py: int, tileX: int, tileY: int, tileSize: int)
      reads hitboxData
    {
      var hb := PlayerHitbox(px, py);
      && hitboxData.hitboxLeft == hb.left && hitboxData.hitboxRight == hb.right
      && hitboxData.hitboxTop == hb.top && hitboxData.hitboxBottom == hb.bottom
      && hitboxData.tilePixelX == tileX && hitboxData.tilePixelY == tileY
      && hitboxData.tilehitsize == tileSize
    }

    constructor (startX: int, startY: int, tilesetting: TileSetting, hitboxData: HitboxData)
      requires tilesetting.Valid()
      ensures Valid() && this.tileSetting == tilesetting && this.hitboxData == hitboxData
      ensures Snapshot() == Initial(startX, startY)
    {
      x := startX;
      y := startY;
      tileSetting := tilesetting;
      this.hitboxData := hitboxData;
      animation := Animation(State(Idle, Down), 0, 0);
      isRunning, isMoving := false, false;
      keys := NoKeys;
      lastPressedDirection := Down;
      new;
      SetState(State(Idle, Down));
    }

    /** A new state name restarts the animation; the current one leaves it running. */
    method SetState(newState: State)
      modifies this`animation
      ensures animation == WithState(old(animation), newState)
    {
      if newState != animation.state {
        animation := animation.(state := newState);
        animation := animation.(frame := 0);
        animation := animation.(counter := 0);
      }
    }

    /** One game tick of the animation clock. */
    method Update()
      modifies this`animation
      ensures animation == Tick(old(animation), isMoving, isRunning)
    {
      var animationSpeed := if isMoving then (if isRunning then RunningAnimationSpeed
                                              else WalkingAnimationSpeed)
                            else IdleAnimationSpeed;
      animation := animation.(counter := animation.counter + 1);
      if animation.counter >= animationSpeed {
        animation := animation.(counter := 0);
        animation := animation.(frame := Rem(animation.frame + 1, FrameCount(animation.state.mode)));
      }
    }

    /** A key press. The position is moved before the collision check and never reverted: on
        a free move the check writes the position back unchanged, and on a blocked one its
        corrections are discarded. The check leaves the hitbox around the new position. */
    method HandleKeyPress(keyCode: int)
      requires Valid()
      modifies this, hitboxData
      ensures Snapshot() == Press(old(Snapshot()), keyCode)
      ensures HitboxAround(x, y, old(hitboxData.tilePixelX), old(hitboxData.tilePixelY),
                           old(hitboxData.tilehitsize))
    {
      var newUpPressed, newDownPressed, newLeftPressed, newRightPressed := Latch(keyCode);
      Move(newUpPressed, newDownPressed, newLeftPressed, newRightPressed);
      var canMove := CheckMove();
      Commit(newUpPressed, newDownPressed, newLeftPressed, newRightPressed);
    }

    /** The key press as evidently intended: a move the collision check refuses is undone. */
    method HandleKeyPressGuarded(keyCode: int)
      requires Valid()
      modifies this, hitboxData
      ensures Snapshot() == GuardedPress(old(Snapshot()), keyCode, PressAllowed(old(Snapshot()), keyCode, tileSetting.grid,
                                      tileSetting.camX, tileSetting.camY,
                                      tileSetting.screenWidth, tileSetting.screenHeight))
      ensures var p := Press(old(Snapshot()), keyCode);
        HitboxAround(p.x, p.y, old(hitboxData.tilePixelX), old(hitboxData.tilePixelY),
                     old(hitboxData.tilehitsize))
    {
      var oldX, oldY := x, y;
      var newUpPressed, newDownPressed, newLeftPressed, newRightPressed := Latch(keyCode);
      Move(newUpPressed, newDownPressed, newLeftPressed, newRightPressed);
      var canMove := CheckMoveOrUndo(oldX, oldY);
      Commit(newUpPressed, newDownPressed, newLeftPressed, newRightPressed);
    }

    /** Latch the pressed key; a pair of opposite latches that agree counts as neither. */
    method Latch(keyCode: int)
      returns (newUpPressed: bool, newDownPressed: bool, newLeftPressed: bool, newRightPressed: bool)
      modifies this`keys
      ensures var k := PressKeys(old(keys), keyCode);
        && newUpPressed == k.up && newDownPressed == k.down
        && newLeftPressed == k.left && newRightPressed == k.right
      ensures keys == old(keys).(space := old(keys.space) || keyCode == VkSpace)
    {
      newUpPressed, newDownPressed := keys.up, keys.down;
      newLeftPressed, newRightPressed := keys.left, keys.right;

      if keyCode == VkSpace { keys := keys.(space := true); }
      if keyCode == VkUp { newUpPressed := true; }
      if keyCode == VkDown { newDownPressed := true; }
      if keyCode == VkLeft { newLeftPressed := true; }
      if keyCode == VkRight { newRightPressed := true; }

      if newUpPressed == newDownPressed { newUpPressed, newDownPressed := false, false; }
      if newLeftPressed == newRightPressed { newLeftPressed, newRightPressed := false, false; }
    }

    /** Move by one step, walking or running as the run flag says, per held latch. */
    method Move(up: bool, down: bool, left: bool, right: bool)
      modifies this`x, this`y
      ensures y == old(y) - (if up then Step(isRunning) else 0) + (if down then Step(isRunning) else 0)
      ensures x == old(x) - (if left then Step(isRunning) else 0) + (if right then Step(isRunning) else 0)
    {
      var moveAmount := if isRunning then RunSpeed else WalkSpeed;
      if up { y := y - moveAmount; }
      if down { y := y + moveAmount; }
      if left { x := x - moveAmount; }
      if right { x := x + moveAmount; }
    }

    /** The collision check of a key press: the position goes to the tile layer in a fresh
        two-element array, which also refreshes the hitbox; the position is copied back only
        when the move is allowed, and then it is unchanged. */
    method CheckMove() returns (canMove: bool)
      requires Valid()
      modifies this`x, this`y, hitboxData
      ensures canMove == Resolve(tileSetting.grid, tileSetting.camX, tileSetting.camY,
                                 tileSetting.screenWidth, tileSetting.screenHeight, x, y).canMove
      ensures x == old(x) && y == old(y)
      ensures HitboxAround(x, y, old(hitboxData.tilePixelX), old(hitboxData.tilePixelY),
                           old(hitboxData.tilehitsize))
    {
      var position := new int[2];
      position[0], position[1] := x, y;
      canMove := tileSetting.IsCollidable(position, hitboxData);
      if canMove {
        x := position[0];
        y := position[1];
      }
    }

    /** The collision check of the guarded key press: a refused move goes back to
        (oldX, oldY). */
    method CheckMoveOrUndo(oldX: int, oldY: int) returns (canMove: bool)
      requires Valid()
      modifies this`x, this`y, hitboxData
      ensures canMove == Resolve(tileSetting.grid, tileSetting.camX, tileSetting.camY,
                                 tileSetting.screenWidth, tileSetting.screenHeight,
                                 old(x), old(y)).canMove
      ensures x == (if canMove then old(x) else oldX) && y == (if canMove then old(y) else oldY)
      ensures HitboxAround(old(x), old(y), old(hitboxData.tilePixelX), old(hitboxData.tilePixelY),
                           old(hitboxData.tilehitsize))
    {
      canMove := CheckMove();
      if !canMove {
        x, y := oldX, oldY;
      }
    }

    /** The last part of a key press: the moving and running flags, the new state and the
        direction latches. */
    method Commit(newUpPressed: bool, newDownPressed: bool, newLeftPressed: bool,
                  newRightPressed: bool)
      modifies this`isMoving, this`isRunning, this`animation, this`keys
      ensures isMoving == (newUpPressed || newDownPressed || newLeftPressed || newRightPressed)
      ensures isRunning == keys.space
      ensures animation == WithState(old(animation),
        DetermineState(newUpPressed, newDownPressed, newLeftPressed, newRightPressed,
                       old(keys.space), lastPressedDirection))
      ensures keys == Keys(old(keys.space), newUpPressed, newDownPressed, newLeftPressed,
                           newRightPressed)
    {
      isMoving := newUpPressed || newDownPressed || newLeftPressed || newRightPressed;
      isRunning := keys.space;
      SetState(DetermineState(newUpPressed, newDownPressed, newLeftPressed, newRightPressed,
                              isRunning, lastPressedDirection));
      keys := keys.(up := newUpPressed);
      keys := keys.(down := newDownPressed);
      keys := keys.(left := newLeftPressed);
      keys := keys.(right := newRightPressed);
    }

    /** A key release. */
    method HandleKeyRelease(keyCode: int)
      modifies this`keys, this`isRunning, this`lastPressedDirection, this`isMoving, this`animation
      ensures Snapshot() == Release(old(Snapshot()), keyCode)
    {
      if keyCode == VkSpace {
        keys := keys.(space := false);
        isRunning := false;
      } else if keyCode == VkUp {
        keys := keys.(up := false); lastPressedDirection := Up;
      } else if keyCode == VkDown {
        keys := keys.(down := false); lastPressedDirection := Down;
      } else if keyCode == VkLeft {
        keys := keys.(left := false); lastPressedDirection := Left;
      } else if keyCode == VkRight {
        keys := keys.(right := false); lastPressedDirection := Right;
      }

      isMoving := keys.up || keys.down || keys.left || keys.right;

      if !isMoving { SetState(State(Idle, lastPressedDirection)); }
    }
  }
}
