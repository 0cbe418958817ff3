/**
 * The keyboard flag machine of player.js: `onKeyDown` sets the flag a key code stands for,
 * `onKeyUp` clears it, and Space jumps only from the ground and only when not crouching.
 */
module Controls {
  import opened Geometry
  import opened Collision

  datatype Option<T> = None | Some(value: T)

  /** `event.code`: the codes the handlers name, and `Other` for every other code. */
  datatype Code =
    | ArrowUp | KeyW | ArrowLeft | KeyA | ArrowDown | KeyS | ArrowRight | KeyD
    | ShiftLeft | ShiftRight | KeyC | ControlLeft | Space | Other

  /** The six movement flags the handlers flip. */
  datatype Flag = Forward | Backward | Left | Right | Sprint | Crouch

  datatype Keys = Keys(moveForward: bool, moveBackward: bool, moveLeft: bool, moveRight: bool,
                       isSprinting: bool, isCrouching: bool)

  const Released := Keys(false, false, false, false, false, false)

  /** `jumpForce`. */
  const JumpForce: real := 15.0

  /** The flag a key code stands for in both handlers; Space and every other code stand for none. */
  function FlagOf(code: Code): Option<Flag>
  {
    match code
    case ArrowUp | KeyW => Some(Forward)
    case ArrowLeft | KeyA => Some(Left)
    case ArrowDown | KeyS => Some(Backward)
    case ArrowRight | KeyD => Some(Right)
    case ShiftLeft | ShiftRight => Some(Sprint)
    case KeyC | ControlLeft => Some(Crouch)
    case Space | Other => None
  }

  function Get(k: Keys, f: Flag): bool
  {
    match f
    case Forward => k.moveForward
    case Backward => k.moveBackward
    case Left => k.moveLeft
    case Right => k.moveRight
    case Sprint => k.isSprinting
    case Crouch => k.isCrouching
  }

  /** `k` with flag `f` set to `v` and every other flag as it was. */
  function Set(k: Keys, f: Flag, v: bool): (r: Keys)
    ensures Get(r, f) == v
    ensures forall g :: g != f ==> Get(r, g) == Get(k, g)
  {
    match f
    case Forward => k.(moveForward := v)
    case Backward => k.(moveBackward := v)
    case Left => k.(moveLeft := v)
    case Right => k.(moveRight := v)
    case Sprint => k.(isSprinting := v)
    case Crouch => k.(isCrouching := v)
  }

  /** The flags after `onKeyDown(code)`. */
  function Press(k: Keys, code: Code): Keys
  {
    match FlagOf(code)
    case Some(f) => Set(k, f, true)
    case None => k
  }

  /** The flags after `onKeyUp(code)`. */
  function Release(k: Keys, code: Code): Keys
  {
    match FlagOf(code)
    case Some(f) => Set(k, f, false)
    case None => k
  }

  /** The Space branch of `onKeyDown`: jump only when grounded and not crouching. */
  function Jump(b: Body, crouching: bool): Body
  {
    if b.onGround && !crouching then b.(velocity := b.velocity.(y := JumpForce), onGround := false)
    else b
  }

  /** Every code the handlers name stands for a flag, except Space. */
  lemma MappedCodes(code: Code)
    ensures FlagOf(code).None? <==> code == Space || code == Other
  {
  }

  /** A key down sets exactly its flag; a code that stands for no flag changes no flag. */
  lemma PressSetsOnlyItsFlag(k: Keys, code: Code)
    ensures FlagOf(code).Some? ==>
      Get(Press(k, code), FlagOf(code).value)
      && forall g :: g != FlagOf(code).value ==> Get(Press(k, code), g) == Get(k, g)
    ensures FlagOf(code).None? ==> Press(k, code) == k
  {
  }

  /**
   * Key up clears exactly the flag that key down of the same code set: pressing then
   * releasing a code leaves every other flag as it was and that one cleared.
   */
  lemma ReleaseUndoesPress(k: Keys, code: Code)
    ensures Release(Press(k, code), code) == Release(k, code)
    ensures FlagOf(code).Some? ==>
      !Get(Release(Press(k, code), code), FlagOf(code).value)
      && forall g :: g != FlagOf(code).value ==> Get(Release(Press(k, code), code), g) == Get(k, g)
  {
    if FlagOf(code).Some? {
      var f := FlagOf(code).value;
      SetTwice(k, f, true, false);
    }
  }

  /** Setting a flag twice keeps only the second value. */
  lemma SetTwice(k: Keys, f: Flag, v: bool, w: bool)
    ensures Set(Set(k, f, v), f, w) == Set(k, f, w)
  {
  }

  /**
   * The jump guard: a grounded, upright player leaves the ground with vertical speed 15 and
   * nothing else changes; in every other case Space changes nothing. So a second Space before
   * landing again does nothing.
   */
  lemma JumpGuard(b: Body, crouching: bool)
    ensures b.onGround && !crouching ==>
      Jump(b, crouching) == b.(velocity := Vec3(b.velocity.x, 15.0, b.velocity.z), onGround := false)
    ensures !(b.onGround && !crouching) ==> Jump(b, crouching) == b
    ensures !Jump(b, crouching).onGround || crouching
    ensures Jump(Jump(b, crouching), crouching) == Jump(b, crouching)
  {
  }
}
