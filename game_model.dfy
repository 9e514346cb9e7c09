/**
 * The discrete state of the demo as one value, and every event handler of the
 * script as a transition on it. The class in `FpsGame` carries the same state
 * in mutable fields and is proved to follow these transitions.
 */
module GameModel {
  import opened Wrappers
  import opened Keyboard
  import Hud

  /** A velocity; its components stand for the script's double values. */
  datatype Vec3 = Vec3(x: real, y: real, z: real)

  const MagazineSize: int := 30
  const InitialReserve: int := 90
  const HipFov: int := 75
  const AdsFov: int := 50
  const PrimaryButton: int := 0
  const SecondaryButton: int := 2
  const MantleReach: real := 1.5
  const MantleBoost: real := 5.0
  const SlideFactor: real := 1.5

  /**
   * keys, velocity, direction (before normalising), isMantling, ammo,
   * reserveAmmo, canShoot, ads: the script's own variables.
   * fov: the camera's field of view. crosshairHidden, instructionsHidden:
   * whether those overlay elements carry the `hidden` class. hud: the text of
   * the ammo element; hudRefreshes: how often it was written.
   * pendingResets: the mantle-reset timers scheduled and not yet fired.
   */
  datatype State = State(
    keys: KeyMap,
    velocity: Vec3,
    dirX: int,
    dirZ: int,
    isMantling: bool,
    pendingResets: nat,
    ammo: int,
    reserveAmmo: int,
    canShoot: bool,
    ads: bool,
    fov: int,
    crosshairHidden: bool,
    instructionsHidden: bool,
    hud: string,
    hudRefreshes: nat)

  /**
   * What reaches the script from outside. A frame carries what the host
   * computes for it: the raycast's nearest hit distance, if any, and the
   * horizontal velocity after normalising, damping and accelerating.
   */
  datatype Event =
    | KeyDown(key: string)
    | KeyUp(key: string)
    | MouseDown(button: int)
    | MouseUp(button: int)
    | Frame(hit: Option<real>, dampedX: real, dampedZ: real)
    | MantleTimerFired
    | PointerLocked
    | PointerUnlocked

  /**
   * The state once the script has loaded and written the HUD. The crosshair
   * and the instructions overlay start without the `hidden` class, as the page
   * serves them.
   */
  function Initial(): (s: State)
    ensures Inv(s)
    ensures s.ammo == MagazineSize && s.hudRefreshes == 1
    ensures !s.ads && !s.isMantling
  {
    State(InitialKeys, Vec3(0.0, 0.0, 0.0), 0, 0, false, 0,
          MagazineSize, InitialReserve, true, false, HipFov, false, false,
          Hud.HudText(MagazineSize, InitialReserve), 1)
  }

  /** `updateHUD`. */
  function UpdateHud(s: State): (t: State)
    ensures t.hud == Hud.HudText(s.ammo, s.reserveAmmo)
    ensures t.hudRefreshes == s.hudRefreshes + 1
    ensures t.(hud := s.hud, hudRefreshes := s.hudRefreshes) == s
  {
    s.(hud := Hud.HudText(s.ammo, s.reserveAmmo), hudRefreshes := s.hudRefreshes + 1)
  }

  /** The shooting `mousedown` listener. */
  function Shoot(s: State, button: int): (t: State)
    ensures button == PrimaryButton && s.canShoot && s.ammo > 0 ==>
      t.ammo == s.ammo - 1 && t.hudRefreshes == s.hudRefreshes + 1
      && t.hud == Hud.HudText(s.ammo - 1, s.reserveAmmo)
      && t.(ammo := s.ammo, hud := s.hud, hudRefreshes := s.hudRefreshes) == s
    ensures !(button == PrimaryButton && s.canShoot && s.ammo > 0) ==> t == s
  {
    if button == PrimaryButton && s.canShoot && s.ammo > 0 then
      UpdateHud(s.(ammo := s.ammo - 1))
    else
      s
  }

  /** The aiming `mousedown` listener. */
  function AimDown(s: State, button: int): (t: State)
    ensures button == SecondaryButton ==>
      t.ads && t.fov == AdsFov && t.crosshairHidden
      && t.(ads := s.ads, fov := s.fov, crosshairHidden := s.crosshairHidden) == s
    ensures button != SecondaryButton ==> t == s
  {
    if button == SecondaryButton then
      s.(ads := true, crosshairHidden := true, fov := AdsFov)
    else
      s
  }

  /** The `mouseup` listener. */
  function AimUp(s: State, button: int): (t: State)
    ensures button == SecondaryButton ==>
      !t.ads && t.fov == HipFov && !t.crosshairHidden
      && t.(ads := s.ads, fov := s.fov, crosshairHidden := s.crosshairHidden) == s
    ensures button != SecondaryButton ==> t == s
  {
    if button == SecondaryButton then
      s.(ads := false, crosshairHidden := false, fov := HipFov)
    else
      s
  }

  /** `slide`: scales the horizontal velocity while shift and c are held. */
  function Slide(s: State): (t: State)
    ensures Sliding(s.keys) ==>
      t.velocity == Vec3(s.velocity.x * SlideFactor, s.velocity.y, s.velocity.z * SlideFactor)
      && t.(velocity := s.velocity) == s
    ensures !Sliding(s.keys) ==> t == s
  {
    if Sliding(s.keys) then
      s.(velocity := s.velocity.(x := s.velocity.x * SlideFactor, z := s.velocity.z * SlideFactor))
    else
      s
  }

  /** Whether `mantle`, seeing nearest hit `hit`, starts a mantle. */
  predicate MantleStarts(s: State, hit: Option<real>) {
    !s.isMantling && hit.Some? && hit.value < MantleReach
  }

  /** `mantle`, with the raycast's nearest hit distance as an input. */
  function Mantle(s: State, hit: Option<real>): (t: State)
    ensures MantleStarts(s, hit) ==>
      t.isMantling && t.velocity == s.velocity.(y := MantleBoost)
      && t.pendingResets == s.pendingResets + 1
      && t.(isMantling := s.isMantling, velocity := s.velocity, pendingResets := s.pendingResets) == s
    ensures !MantleStarts(s, hit) ==> t == s
  {
    if s.isMantling then s
    else if hit.Some? && hit.value < MantleReach then
      s.(isMantling := true, velocity := s.velocity.(y := MantleBoost), pendingResets := s.pendingResets + 1)
    else s
  }

  /**
   * The callback of the mantle timer. It can only fire when one was
   * scheduled; an event without one changes nothing.
   */
  function ResetMantle(s: State): (t: State)
    ensures s.pendingResets > 0 ==>
      !t.isMantling && t.pendingResets == s.pendingResets - 1
      && t.(isMantling := s.isMantling, pendingResets := s.pendingResets) == s
    ensures s.pendingResets == 0 ==> t == s
  {
    if s.pendingResets == 0 then s
    else s.(isMantling := false, pendingResets := s.pendingResets - 1)
  }

  /**
   * One call of `animate`, up to the calls into the controls: the direction
   * of the held keys is stored, the host's damped velocity is slid, and a
   * mantle may start. Nothing else changes.
   */
  function AnimateFrame(s: State, hit: Option<real>, dampedX: real, dampedZ: real): (t: State)
    ensures t.dirX == DirX(s.keys) && t.dirZ == DirZ(s.keys)
    ensures t.velocity.x == if Sliding(s.keys) then dampedX * SlideFactor else dampedX
    ensures t.velocity.z == if Sliding(s.keys) then dampedZ * SlideFactor else dampedZ
    ensures t.velocity.y == if MantleStarts(s, hit) then MantleBoost else s.velocity.y
    ensures t.isMantling == (s.isMantling || MantleStarts(s, hit))
    ensures t.pendingResets == s.pendingResets + (if MantleStarts(s, hit) then 1 else 0)
    ensures t.(dirX := s.dirX, dirZ := s.dirZ, velocity := s.velocity,
               isMantling := s.isMantling, pendingResets := s.pendingResets) == s
  {
    var moved := s.(dirX := DirX(s.keys), dirZ := DirZ(s.keys),
                    velocity := s.velocity.(x := dampedX, z := dampedZ));
    Mantle(Slide(moved), hit)
  }

  /**
   * The listener (or frame) that an event reaches. Each kind of event
   * touches only its own part of the state.
   */
  function Step(s: State, e: Event): (t: State)
    ensures !(e.KeyDown? || e.KeyUp?) ==> t.keys == s.keys
    ensures !e.MouseDown? ==> t.ammo == s.ammo && t.hud == s.hud && t.hudRefreshes == s.hudRefreshes
    ensures !(e.MouseDown? || e.MouseUp?) ==>
      t.ads == s.ads && t.fov == s.fov && t.crosshairHidden == s.crosshairHidden
    ensures !e.Frame? ==> t.velocity == s.velocity && t.dirX == s.dirX && t.dirZ == s.dirZ
    ensures !(e.Frame? || e.MantleTimerFired?) ==>
      t.isMantling == s.isMantling && t.pendingResets == s.pendingResets
    ensures !(e.PointerLocked? || e.PointerUnlocked?) ==> t.instructionsHidden == s.instructionsHidden
    ensures t.reserveAmmo == s.reserveAmmo && t.canShoot == s.canShoot
  {
    match e
    case KeyDown(key) => s.(keys := SetKey(s.keys, key, true))
    case KeyUp(key) => s.(keys := SetKey(s.keys, key, false))
    case MouseDown(button) => AimDown(Shoot(s, button), button)
    case MouseUp(button) => AimUp(s, button)
    case Frame(hit, dx, dz) => AnimateFrame(s, hit, dx, dz)
    case MantleTimerFired => ResetMantle(s)
    case PointerLocked => s.(instructionsHidden := true)
    case PointerUnlocked => s.(instructionsHidden := false)
  }

  /** The state after the events `es`, in order. */
  function Run(s: State, es: seq<Event>): State
    decreases |es|
  {
    if es == [] then s else Run(Step(s, es[0]), es[1..])
  }

  /** What holds in every state the script can reach. */
  ghost predicate Inv(s: State) {
    && 0 <= s.ammo <= MagazineSize
    && s.reserveAmmo == InitialReserve
    && s.canShoot
    && s.hud == Hud.HudText(s.ammo, s.reserveAmmo)
    && s.hudRefreshes == 1 + (MagazineSize - s.ammo)
    && (s.fov == AdsFov || s.fov == HipFov)
    && (s.fov == AdsFov <==> s.ads)
    && (s.crosshairHidden <==> s.ads)
    && s.pendingResets == (if s.isMantling then 1 else 0)
  }
}
