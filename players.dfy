/**
 * Class `Player` of player.js, restricted to its sequential logic: the collision pass over
 * the platform list, the key handlers, and the fall-through respawn. The fields the source
 * mutates are fields here; the entries' `isCollected` flags are set in place.
 */
module Players {
  import opened Geometry
  import opened Entities
  import opened Collision
  import opened Controls

  /** The entries of `es` whose `isCollected` flag is set. */
  ghost function CollectedIn(es: seq<Entry>): set<Entry>
    reads set e | e in es
  {
    set e | e in es && e.isCollected
  }

  /** Falling below y = -50 puts the player 10 above the last checkpoint, at rest. */
  function Respawn(b: Body): Body
  {
    if b.position.y < -50.0 then b.(position := b.anchor.Plus(Vec3(0.0, 10.0, 0.0)), velocity := Origin)
    else b
  }

  /**
   * The respawn step: at or above y = -50 nothing changes; below it only position and
   * velocity change, to 10 above the anchor and zero. With the anchor no lower than y = -60,
   * as the initial one at y = 5, the player is then no longer below the threshold.
   */
  lemma RespawnRule(b: Body)
    ensures b.position.y >= -50.0 ==> Respawn(b) == b
    ensures b.position.y < -50.0 ==>
      var r := Respawn(b);
      && r.position == Vec3(b.anchor.x, b.anchor.y + 10.0, b.anchor.z) && r.velocity == Origin
      && r.height == b.height && r.onGround == b.onGround && r.anchor == b.anchor && r.count == b.count
    ensures b.anchor.y >= -60.0 ==> Respawn(b).position.y >= -50.0 || b.position.y >= -50.0
  {
  }

  class Player {
    var position: Vec3
    var velocity: Vec3
    var height: real
    var onGround: bool
    var lastCheckpoint: Vec3
    var checkpointCount: int
    var moveForward: bool
    var moveBackward: bool
    var moveLeft: bool
    var moveRight: bool
    var isSprinting: bool
    var isCrouching: bool

    /** The physical state as a value. */
    function BodyState(): Body
      reads this
    {
      Body(position, velocity, height, onGround, lastCheckpoint, checkpointCount)
    }

    /** The movement flags as a value. */
    function KeyState(): Keys
      reads this
    {
      Keys(moveForward, moveBackward, moveLeft, moveRight, isSprinting, isCrouching)
    }

    /** Start 10 above the origin at rest, standing height 2, anchor at (0, 5, 0), no flag set. */
    constructor ()
      ensures BodyState() == Body(Vec3(0.0, 10.0, 0.0), Origin, 2.0, false, Vec3(0.0, 5.0, 0.0), 0)
      ensures KeyState() == Released
    {
      position := Vec3(0.0, 10.0, 0.0);
      velocity := Vec3(0.0, 0.0, 0.0);
      lastCheckpoint := Vec3(0.0, 5.0, 0.0);
      checkpointCount := 0;
      height := 2.0;
      onGround := false;
      moveForward, moveBackward, moveLeft, moveRight := false, false, false, false;
      isSprinting, isCrouching := false, false;
    }

    /**
     * `onKeyDown`: the `switch` over `event.code` sets the flag the code stands for; its
     * Space case is the jump guard.
     */
    method OnKeyDown(code: Code)
      modifies this
      ensures KeyState() == Press(old(KeyState()), code)
      ensures BodyState() == if code == Space then Jump(old(BodyState()), old(isCrouching)) else old(BodyState())
    {
      var flag := FlagOf(code);
      if flag.Some? {
        SetFlag(flag.value, true);
      } else if code == Space {
        if onGround && !isCrouching {
          velocity := velocity.(y := JumpForce);
          onGround := false;
        }
      }
    }

    /** `onKeyUp`: the same `switch`, clearing the flag; Space has no case there. */
    method OnKeyUp(code: Code)
      modifies this
      ensures KeyState() == Release(old(KeyState()), code)
      ensures BodyState() == old(BodyState())
    {
      var flag := FlagOf(code);
      if flag.Some? {
        SetFlag(flag.value, false);
      }
    }

    /** The assignment of one case of the `switch`. */
    method SetFlag(f: Flag, v: bool)
      modifies this
      ensures KeyState() == Set(old(KeyState()), f, v)
      ensures BodyState() == old(BodyState())
    {
      match f
      case Forward => moveForward := v;
      case Backward => moveBackward := v;
      case Left => moveLeft := v;
      case Right => moveRight := v;
      case Sprint => isSprinting := v;
      case Crouch => isCrouching := v;
    }

    /**
     * `checkCollisions(platforms)`: the pass of module `Collision`, with the entries'
     * `isCollected` flags updated in place and nothing else of theirs touched.
     */
    method CheckCollisions(platforms: seq<Entry>)
      modifies this, set e | e in platforms
      ensures Sweep(BodyState(), CollectedIn(platforms))
           == CheckAll(Sweep(old(BodyState()), old(CollectedIn(platforms))), platforms)
      ensures KeyState() == old(KeyState())
    {
      onGround := false;
      ghost var s0 := Sweep(BodyState(), CollectedIn(platforms));
      for i := 0 to |platforms|
        invariant Sweep(BodyState(), CollectedIn(platforms)) == Pass(s0, platforms[..i])
        invariant KeyState() == old(KeyState())
      {
        Meet(platforms[i], platforms);
        assert platforms[..i + 1][..i] == platforms[..i];
      }
      assert platforms[..|platforms|] == platforms;
    }

    /** The body of the loop of `checkCollisions` for one entry of the list. */
    method Meet(platform: Entry, ghost platforms: seq<Entry>)
      requires platform in platforms
      modifies this, platform
      ensures Sweep(BodyState(), CollectedIn(platforms))
           == Step(old(Sweep(BodyState(), CollectedIn(platforms))), platform)
      ensures KeyState() == old(KeyState())
    {
      var box := platform.box;
      var center := position;
      var playerBox := Box3(Vec3(center.x - 0.5, center.y - height, center.z - 0.5),
                            Vec3(center.x + 0.5, center.y + 0.2, center.z + 0.5));
      if Intersects(box, playerBox) {
        if platform.isCheckpointPlatform {
          CreditCheckpoint(platform, platforms);
        }
        if platform.kind == CheckpointBeacon {
          return;
        }
        ghost var collected := CollectedIn(platforms);
        ResolveAgainst(box, center, playerBox);
        assert CollectedIn(platforms) == collected;
      }
    }

    /** The checkpoint branch: the `isCollected` test and the anchor move. */
    method CreditCheckpoint(platform: Entry, ghost platforms: seq<Entry>)
      requires platform in platforms
      modifies this`checkpointCount, this`lastCheckpoint, platform`isCollected
      ensures Sweep(BodyState(), CollectedIn(platforms))
           == Credit(old(Sweep(BodyState(), CollectedIn(platforms))), platform)
    {
      if !platform.isCollected {
        platform.isCollected := true;
        checkpointCount := checkpointCount + 1;
        assert CollectedIn(platforms) == old(CollectedIn(platforms)) + {platform};
      }
      if DistanceSquared(lastCheckpoint, platform.position) > 1.0 {
        lastCheckpoint := platform.position;
      }
    }

    /**
     * Landing or pushback against `box`; `center` and `playerBox` are the copies taken when
     * the entry was reached, which the checkpoint branch does not change.
     */
    method ResolveAgainst(box: Box3, center: Vec3, playerBox: Box3)
      requires center == position && playerBox == PlayerBox(position, height)
      modifies this`position, this`velocity, this`onGround
      ensures BodyState() == Resolve(old(BodyState()), box)
    {
      var boxTop := box.max.y;
      var feetY := position.y - height;
      if feetY >= boxTop - 0.5 && velocity.y <= 0.0 {
        position := position.(y := boxTop + height);
        velocity := velocity.(y := 0.0);
        onGround := true;
      } else {
        var overlapX := Min(Abs(playerBox.max.x - box.min.x), Abs(playerBox.min.x - box.max.x));
        var overlapZ := Min(Abs(playerBox.max.z - box.min.z), Abs(playerBox.min.z - box.max.z));
        if overlapX < overlapZ {
          if center.x < box.min.x {
            position := position.(x := box.min.x - 0.5);
          } else {
            position := position.(x := box.max.x + 0.5);
          }
          velocity := velocity.(x := 0.0);
        } else {
          if center.z < box.min.z {
            position := position.(z := box.min.z - 0.5);
          } else {
            position := position.(z := box.max.z + 0.5);
          }
          velocity := velocity.(z := 0.0);
        }
      }
    }

    /**
     * The part of `update(delta, platforms)` after the kinematics: the fall-through respawn,
     * then the collision pass, on the position the kinematics produced.
     */
    method Update(platforms: seq<Entry>)
      modifies this, set e | e in platforms
      ensures Sweep(BodyState(), CollectedIn(platforms))
           == CheckAll(Sweep(Respawn(old(BodyState())), old(CollectedIn(platforms))), platforms)
      ensures KeyState() == old(KeyState())
    {
      if position.y < -50.0 {
        position := lastCheckpoint;
        position := position.(y := position.y + 10.0);
        velocity := Vec3(0.0, 0.0, 0.0);
      }
      CheckCollisions(platforms);
    }
  }
}
