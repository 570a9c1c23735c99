/**
 * The parts of the game's shared `globals` module that the room runtime reads
 * and writes: the interaction lock, `globals.quit()`, the room the player is
 * sent to by `chara.go_to_room`, and the save popups opened; and the player
 * character `globals.chara`, of which the runtime uses the position, facing,
 * moving flag, speed and current sprite.
 */
module GlobalState {
  import opened Wrappers
  import opened AssetManagement

  /** A snapshot of the shared globals. */
  datatype Shared = Shared(eventLock: bool, quitCalls: nat, roomRequests: seq<string>, savesOpened: nat)

  class Globals {
    /** `globals.event_lock`: while it is held, the walk controller ignores input. */
    var eventLock: bool
    /** How many times `globals.quit()` was called. */
    var quitCalls: nat
    /** The rooms passed to `chara.go_to_room`, oldest first. */
    var roomRequests: seq<string>
    /** How many save popups were opened. */
    var savesOpened: nat

    function State(): Shared
      reads this
    {
      Shared(eventLock, quitCalls, roomRequests, savesOpened)
    }

    constructor ()
      ensures State() == Shared(false, 0, [], 0)
    {
      eventLock := false;
      quitCalls := 0;
      roomRequests := [];
      savesOpened := 0;
    }
  }

  /** Where the character stands and how it faces: `pos`, `dir` (0 up, 1 right, 2 down, 3 left) and `moving`. */
  datatype Pose = Pose(x: int, y: int, dir: int, moving: bool)

  /** `globals.chara`; `x`/`y` stand for both `pos[0]`/`pos[1]` and `chara.x`/`chara.y`. */
  class Character {
    var x: int
    var y: int
    var dir: int
    var moving: bool
    var movespeed: int
    var sprite: Option<Image>

    function Posture(): Pose
      reads this
    {
      Pose(x, y, dir, moving)
    }

    constructor (x0: int, y0: int, dir0: int, speed: int)
      ensures Posture() == Pose(x0, y0, dir0, false)
      ensures movespeed == speed && sprite == None
    {
      x, y, dir, moving := x0, y0, dir0, false;
      movespeed := speed;
      sprite := None;
    }
  }
}
